/** The last-applied record: what MergeSpecs keeps in an annotation, and what that bookkeeping
    guarantees over every run of updates and foreign edits. */
module LastApplied {
  import opened Trees
  import opened ThreeWayMerge

  const LAST_APPLIED: string := "operator.deploy.tel/last-applied-configuration"

  /** An annotation value, as the JSON decoder sees it: a last-applied record as the operator writes it,
      another JSON document, or text that is no JSON. Encoding and decoding a record are inverse by
      construction. */
  datatype Value =
    | Plain(text: string)
    | Document(tree: Tree)
    | Record(annotations: Annotations, spec: Option<Tree>)

  type Annotations = map<string, Value>

  /** An object of the cluster, as far as MergeSpecs sees it. */
  datatype Managed = Managed(annotations: Annotations, spec: Tree)

  /** The original of the three-way merge; Unreadable when it is no JSON object. */
  datatype Original = Unreadable | Known(tree: Option<Tree>)

  function ReadTree(t: Option<Tree>): Original {
    if t.Some? && t.value.Leaf? then Unreadable else Known(t)
  }

  /** Whether a document decodes as a record: an object whose annotations, if any, are strings. */
  predicate Decodes(document: Tree) {
    document.Node?
    && ("annotations" in document.members ==>
          var listed := document.members["annotations"];
          listed.Node? && forall k | k in listed.members :: listed.members[k].Leaf? && listed.members[k].value.Text?)
  }

  /** The original of the merge: the spec of whatever decodes, and the whole of whatever does not. */
  function OriginalOf(annotations: Annotations): Original {
    if LAST_APPLIED !in annotations then Known(None)
    else match annotations[LAST_APPLIED]
      case Plain(text) => if text == "" then Known(None) else Unreadable
      case Document(tree) => ReadTree(if Decodes(tree) then Member(Some(tree), "spec") else Some(tree))
      case Record(_, spec) => ReadTree(spec)
  }

  /** The annotations the record says the operator set. */
  function Owned(annotations: Annotations): set<string> {
    if LAST_APPLIED !in annotations then {}
    else match annotations[LAST_APPLIED]
      case Plain(_) => {}
      case Document(tree) =>
        if Decodes(tree) && "annotations" in tree.members then tree.members["annotations"].members.Keys else {}
      case Record(listed, _) => listed.Keys
  }

  function Annotate(annotations: Annotations, target: Tree, targetAnnotations: Annotations): Annotations {
    ((annotations - Owned(annotations)) + targetAnnotations)[LAST_APPLIED := Record(targetAnnotations, Some(target))]
  }

  /** One update of a live object; None when MergeSpecs fails and nothing is persisted. */
  function Update(obj: Managed, target: Tree, targetAnnotations: Annotations): Option<Managed> {
    match OriginalOf(obj.annotations)
    case Unreadable => None
    case Known(original) =>
      var merged := Merge(original, target, obj.spec);
      if merged.None? then None
      else Some(Managed(Annotate(obj.annotations, target, targetAnnotations), merged.value))
  }

  lemma UpdateAtPath(obj: Managed, target: Tree, targetAnnotations: Annotations, p: Path)
    ensures Update(obj, target, targetAnnotations).Some? <==> OriginalOf(obj.annotations).Known?
    ensures OriginalOf(obj.annotations).Known? ==>
              At(Update(obj, target, targetAnnotations).value.spec, p)
              == Settled(OriginalOf(obj.annotations).tree, target, p, At(obj.spec, p))
  {
    if OriginalOf(obj.annotations).Known? {
      MergeMeetsPathSpec(OriginalOf(obj.annotations).tree, target, obj.spec, p);
    }
  }

  /** What one call wrote, the next call reads back: exactly that target and those annotations. */
  lemma RecordRoundTrip(obj: Managed, target: Tree, targetAnnotations: Annotations)
    requires target.Node?
    requires Update(obj, target, targetAnnotations).Some?
    ensures var after := Update(obj, target, targetAnnotations).value.annotations;
            OriginalOf(after) == Known(Some(target)) && Owned(after) == targetAnnotations.Keys
  {
  }

  /** The document a record is written as. */
  function Written(listed: map<string, string>, spec: Tree): Tree {
    Node(map["annotations" := Node(map k | k in listed :: Leaf(Text(listed[k]))), "spec" := spec])
  }

  /** Read back from its document, a record is what was written: the spec is the original of the next merge
      and the annotations listed are owned. An object without a spec is no original, an object that is
      no record is one as a whole, and anything else is not readable. */
  lemma DocumentsAreRead(listed: map<string, string>, spec: Tree, document: Tree)
    requires spec.Node?
    ensures var annotations := map[LAST_APPLIED := Document(Written(listed, spec))];
            OriginalOf(annotations) == Known(Some(spec)) && Owned(annotations) == listed.Keys
    ensures var annotations := map[LAST_APPLIED := Document(document)];
            && (document.Leaf? ==> OriginalOf(annotations) == Unreadable && Owned(annotations) == {})
            && (document.Node? && "annotations" in document.members && document.members["annotations"].Leaf? ==>
                  OriginalOf(annotations) == Known(Some(document)) && Owned(annotations) == {})
            && (document.Node? && "annotations" !in document.members && "spec" !in document.members ==>
                  OriginalOf(annotations) == Known(None) && Owned(annotations) == {})
  {
    var written := Written(listed, spec).members["annotations"];
    assert written.members.Keys == listed.Keys;
  }

  /** The same update again finds nothing to do, whatever absent spec paths were filled in between. */
  lemma UpdateIsAFixpoint(obj: Managed, target: Tree, targetAnnotations: Annotations, filled: Tree)
    requires target.Node?
    requires Update(obj, target, targetAnnotations).Some?
    requires Covers(filled, Update(obj, target, targetAnnotations).value.spec)
    ensures var again := Managed(Update(obj, target, targetAnnotations).value.annotations, filled);
            Update(again, target, targetAnnotations) == Some(again)
  {
    var after := Update(obj, target, targetAnnotations).value;
    var again := Managed(after.annotations, filled);
    MergeIsAFixpoint(OriginalOf(obj.annotations).tree, target, obj.spec, filled);
    assert Annotate(again.annotations, target, targetAnnotations) == again.annotations;
  }

  // Runs: updates by the operator, interleaved with anything anybody else does to the object.

  datatype Step =
    | Apply(target: Tree, annotations: Annotations)
    | Foreign(obj: Managed)

  function Next(obj: Managed, step: Step): Managed {
    match step
    case Apply(target, annotations) =>
      var updated := Update(obj, target, annotations);
      if updated.Some? then updated.value else obj
    case Foreign(edited) => edited
  }

  function Run(obj: Managed, steps: seq<Step>): Managed {
    if steps == [] then obj else Next(Run(obj, steps[..|steps| - 1]), steps[|steps| - 1])
  }

  /** Targets are specs, and foreign edits leave the operator's record alone. */
  predicate Honest(obj: Managed, steps: seq<Step>) {
    steps == [] ||
    (var (before, step) := (Run(obj, steps[..|steps| - 1]), steps[|steps| - 1]);
     && Honest(obj, steps[..|steps| - 1])
     && (step.Apply? ==> step.target.Node?)
     && (step.Foreign? ==> SameRecord(before.annotations, step.obj.annotations)))
  }

  predicate SameRecord(a: Annotations, b: Annotations) {
    && (LAST_APPLIED in a <==> LAST_APPLIED in b)
    && (LAST_APPLIED in a ==> a[LAST_APPLIED] == b[LAST_APPLIED])
  }

  lemma {:induction false} RunKeepsReadable(obj: Managed, steps: seq<Step>)
    requires Honest(obj, steps) && OriginalOf(obj.annotations).Known?
    ensures OriginalOf(Run(obj, steps).annotations).Known?
    decreases |steps|
  {
    if steps != [] {
      RunKeepsReadable(obj, steps[..|steps| - 1]);
      var before, step := Run(obj, steps[..|steps| - 1]), steps[|steps| - 1];
      if step.Apply? {
        UpdateAtPath(before, step.target, step.annotations, []);
        RecordRoundTrip(before, step.target, step.annotations);
      }
    }
  }

  /** Right after an update the spec holds its target, the annotations hold its annotations, and the
      record says so, whatever run came before. */
  lemma LastTargetWins(obj: Managed, steps: seq<Step>, target: Tree, annotations: Annotations)
    requires Honest(obj, steps) && OriginalOf(obj.annotations).Known? && target.Node?
    ensures var after := Next(Run(obj, steps), Apply(target, annotations));
            && Covers(after.spec, target)
            && (forall k | k in annotations && k != LAST_APPLIED ::
                  k in after.annotations && after.annotations[k] == annotations[k])
            && LAST_APPLIED in after.annotations
            && after.annotations[LAST_APPLIED] == Record(annotations, Some(target))
  {
    RunKeepsReadable(obj, steps);
    var before := Run(obj, steps);
    UpdateAtPath(before, target, annotations, []);
    PipelineIsOverlay(OriginalOf(before.annotations).tree, target, before.spec);
    OverlayCoversTarget(OriginalOf(before.annotations).tree, target, Some(before.spec));
  }

  // Nothing formerly owned is left behind.

  predicate Holds(spec: Tree, p: Path) { At(spec, p).Some? }

  /** Whether p, if present, is somebody else's doing: a foreign edit put it there, or it was there
      from the start, and no target has claimed it since. */
  predicate PutByOthers(obj: Managed, steps: seq<Step>, p: Path) {
    if steps == [] then Holds(obj.spec, p)
    else
      var (prior, step) := (steps[..|steps| - 1], steps[|steps| - 1]);
      match step
      case Apply(target, _) => !Holds(target, p) && PutByOthers(obj, prior, p)
      case Foreign(edited) => !Holds(Run(obj, prior).spec, p) || PutByOthers(obj, prior, p)
  }

  /** The spec's paths at the end of any run: the last record's, and those put there by others. A path
      some earlier target owned and a later one dropped is gone unless a foreign edit brought it back. */
  lemma {:induction false} NoOwnedPathLeftBehind(obj: Managed, steps: seq<Step>, p: Path)
    requires Honest(obj, steps) && OriginalOf(obj.annotations).Known?
    requires Holds(Run(obj, steps).spec, p)
    ensures OriginalOf(Run(obj, steps).annotations).Known?
    ensures AtOption(OriginalOf(Run(obj, steps).annotations).tree, p).Some? || PutByOthers(obj, steps, p)
    decreases |steps|
  {
    RunKeepsReadable(obj, steps);
    if steps != [] {
      var prior, step := steps[..|steps| - 1], steps[|steps| - 1];
      var before := Run(obj, prior);
      RunKeepsReadable(obj, prior);
      if step.Apply? {
        UpdateAtPath(before, step.target, step.annotations, p);
        RecordRoundTrip(before, step.target, step.annotations);
        if !Holds(step.target, p) {
          SettledPresent(OriginalOf(before.annotations).tree, step.target, p, At(before.spec, p));
          NoOwnedPathLeftBehind(obj, prior, p);
        }
      } else if Holds(before.spec, p) {
        NoOwnedPathLeftBehind(obj, prior, p);
      }
    }
  }

  /** A path the target lacks survives a merge only if it was there and the original lacked it too. */
  lemma SettledPresent(original: Option<Tree>, target: Tree, p: Path, before: Option<Entry>)
    requires At(target, p).None? && Settled(original, target, p, before).Some?
    ensures before.Some? && AtOption(original, p).None?
  {
    hide At;
    var n := Reach(target, p);
    assert p[..|p|] == p;
    if AtOption(original, p).Some? {
      PrefixPresent(original.value, p, n + 1);
    }
  }

  lemma {:induction false} PrefixPresent(t: Tree, p: Path, n: nat)
    requires n <= |p| && At(t, p).Some?
    ensures At(t, p[..n]).Some?
    decreases |p|
  {
    if n > 0 {
      PrefixPresent(t.members[p[0]], p[1..], n - 1);
      assert p[..n][1..] == p[1..][..n - 1];
    }
  }

  // Foreign paths survive.

  /** t has the object at p[..n], and p leaves it there. */
  predicate Beside(t: Option<Tree>, p: Path, n: nat)
    requires n < |p|
  {
    AtOption(t, p[..n]) == Some(Object) && AtOption(t, p[..n + 1]).None?
  }

  /** Every update of the run, and every record it starts from, has p hanging off the same object. */
  predicate NeverUnderOwnedKey(obj: Managed, steps: seq<Step>, p: Path, n: nat)
    requires n < |p|
  {
    forall i | 0 <= i < |steps| && steps[i].Apply? :: Beside(Some(steps[i].target), p, n)
  }

  /** A path no target ever owns a key of is never touched by the operator: its entry at the end of
      the run is what the last foreign edit left there. */
  lemma {:induction false} ForeignPathKept(obj: Managed, steps: seq<Step>, p: Path, n: nat)
    requires n < |p|
    requires Honest(obj, steps) && OriginalOf(obj.annotations).Known?
    requires NeverUnderOwnedKey(obj, steps, p, n)
    requires AtOption(OriginalOf(obj.annotations).tree, p[..n + 1]).None?
    ensures At(Run(obj, steps).spec, p) == At(LastForeign(obj, steps).spec, p)
    ensures OriginalOf(Run(obj, steps).annotations).Known?
    ensures AtOption(OriginalOf(Run(obj, steps).annotations).tree, p[..n + 1]).None?
    decreases |steps|
  {
    RunKeepsReadable(obj, steps);
    if steps != [] {
      var prior, step := steps[..|steps| - 1], steps[|steps| - 1];
      var before := Run(obj, prior);
      assert forall i | 0 <= i < |prior| :: prior[i] == steps[i];
      ForeignPathKept(obj, prior, p, n);
      if step.Apply? {
        assert Beside(Some(steps[|steps| - 1].target), p, n);
        UpdateAtPath(before, step.target, step.annotations, p);
        RecordRoundTrip(before, step.target, step.annotations);
        ReachBeside(step.target, p, n);
      }
    }
  }

  function LastForeign(obj: Managed, steps: seq<Step>): Managed {
    if steps == [] then obj
    else if steps[|steps| - 1].Foreign? then steps[|steps| - 1].obj
    else LastForeign(obj, steps[..|steps| - 1])
  }

  lemma {:induction false} ReachBeside(t: Tree, p: Path, n: nat)
    requires n < |p| && Beside(Some(t), p, n)
    ensures Reach(t, p) == n
    decreases |p|
  {
    if n > 0 {
      assert p[..n][1..] == p[1..][..n - 1];
      assert p[..n + 1][1..] == p[1..][..n];
      ReachBeside(t.members[p[0]], p[1..], n - 1);
    } else {
      assert p[..1] == [p[0]];
      OneStep(Some(t), p[0]);
    }
  }

  // Annotations, key by key.

  predicate AnnotatedByOthers(obj: Managed, steps: seq<Step>, key: string) {
    if steps == [] then key in obj.annotations
    else
      var (prior, step) := (steps[..|steps| - 1], steps[|steps| - 1]);
      match step
      case Apply(_, annotations) => key !in annotations && AnnotatedByOthers(obj, prior, key)
      case Foreign(_) => key !in Run(obj, prior).annotations || AnnotatedByOthers(obj, prior, key)
  }

  /** The annotations at the end of any run are the record, the annotations it lists, and those put
      there by others and not targeted since: no annotation the operator dropped is left behind. */
  lemma {:induction false} NoOwnedAnnotationLeftBehind(obj: Managed, steps: seq<Step>, key: string)
    requires Honest(obj, steps) && OriginalOf(obj.annotations).Known?
    requires key in Run(obj, steps).annotations && key != LAST_APPLIED
    ensures key in Owned(Run(obj, steps).annotations) || AnnotatedByOthers(obj, steps, key)
    decreases |steps|
  {
    if steps != [] {
      var prior, step := steps[..|steps| - 1], steps[|steps| - 1];
      var before := Run(obj, prior);
      RunKeepsReadable(obj, prior);
      if step.Apply? {
        UpdateAtPath(before, step.target, step.annotations, []);
        RecordRoundTrip(before, step.target, step.annotations);
        if key !in step.annotations {
          NoOwnedAnnotationLeftBehind(obj, prior, key);
        }
      } else if key in before.annotations {
        NoOwnedAnnotationLeftBehind(obj, prior, key);
      }
    }
  }

  predicate NeverTargeted(steps: seq<Step>, key: string) {
    forall i | 0 <= i < |steps| && steps[i].Apply? :: key !in steps[i].annotations
  }

  /** An annotation no update ever targets is, at the end, what the last foreign edit left. */
  lemma {:induction false} ForeignAnnotationKept(obj: Managed, steps: seq<Step>, key: string)
    requires Honest(obj, steps) && OriginalOf(obj.annotations).Known?
    requires NeverTargeted(steps, key) && key !in Owned(obj.annotations) && key != LAST_APPLIED
    ensures key !in Owned(Run(obj, steps).annotations)
    ensures var (end, foreign) := (Run(obj, steps).annotations, LastForeign(obj, steps).annotations);
            (key in end <==> key in foreign) && (key in end ==> end[key] == foreign[key])
    decreases |steps|
  {
    if steps != [] {
      var prior, step := steps[..|steps| - 1], steps[|steps| - 1];
      assert forall i | 0 <= i < |prior| :: prior[i] == steps[i];
      ForeignAnnotationKept(obj, prior, key);
      RunKeepsReadable(obj, prior);
      if step.Apply? {
        assert key !in steps[|steps| - 1].annotations;
        UpdateAtPath(Run(obj, prior), step.target, step.annotations, []);
        RecordRoundTrip(Run(obj, prior), step.target, step.annotations);
      }
    }
  }
}
