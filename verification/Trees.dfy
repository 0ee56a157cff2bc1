/** Specs as finite trees, the shape json.Marshal gives them: scalars and objects.
    A list merged by key is an object over its keys; any other list is one scalar. */
module Trees {
  datatype Option<+T> = None | Some(value: T)

  datatype Scalar = Text(text: string) | Number(number: int)

  datatype Tree = Leaf(value: Scalar) | Node(members: map<string, Tree>)

  type Path = seq<string>

  /** What a tree holds at a path: a scalar, or an object whose members lie further down. */
  datatype Entry = Scalar(value: Scalar) | Object

  const Empty: Tree := Node(map[])

  function Member(t: Option<Tree>, key: string): (r: Option<Tree>) {
    if t.Some? && t.value.Node? && key in t.value.members then Some(t.value.members[key]) else None
  }

  function At(t: Tree, p: Path): (e: Option<Entry>)
  {
    match t
    case Leaf(v) => if p == [] then Some(Entry.Scalar(v)) else None
    case Node(m) =>
      if p == [] then Some(Object)
      else if p[0] in m then At(m[p[0]], p[1..])
      else None
  }

  function AtOption(t: Option<Tree>, p: Path): Option<Entry> {
    if t.Some? then At(t.value, p) else None
  }

  /** Two trees that answer every path alike are the same tree. */
  lemma {:induction false} PathsDetermineTree(a: Tree, b: Tree)
    requires forall p: Path :: At(a, p) == At(b, p)
    ensures a == b
  {
    assert At(a, []) == At(b, []);
    if a.Node? {
      forall k ensures k in a.members <==> k in b.members {
        assert At(a, [k]) == At(b, [k]);
        KeyPresent(a, k);
        KeyPresent(b, k);
      }
      forall k | k in a.members ensures a.members[k] == b.members[k] {
        forall p: Path ensures At(a.members[k], p) == At(b.members[k], p) {
          assert ([k] + p)[1..] == p;
          assert At(a, [k] + p) == At(b, [k] + p);
        }
        PathsDetermineTree(a.members[k], b.members[k]);
      }
      assert a.members == b.members;
    }
  }

  lemma RootPresent(t: Tree)
    ensures At(t, []).Some?
  {
  }

  lemma KeyPresent(t: Tree, k: string)
    requires t.Node?
    ensures At(t, [k]).Some? <==> k in t.members
  {
    if k in t.members {
      RootPresent(t.members[k]);
      assert [k][1..] == [];
    }
  }

  /** d holds everything t holds, with the same value; d may hold more. */
  predicate Covers(d: Tree, t: Tree) {
    match t
    case Leaf(_) => d == t
    case Node(m) => d.Node? && forall k | k in m :: k in d.members && Covers(d.members[k], m[k])
  }

  /** Covers, said path by path. */
  ghost predicate AgreesOn(d: Tree, t: Tree) {
    forall p: Path :: At(t, p).Some? ==> At(d, p) == At(t, p)
  }

  lemma {:induction false} CoversIsPathwise(d: Tree, t: Tree)
    ensures Covers(d, t) <==> AgreesOn(d, t)
  {
    if Covers(d, t) {
      forall p: Path | At(t, p).Some? ensures At(d, p) == At(t, p) {
        CoveredPath(d, t, p);
      }
    } else if AgreesOn(d, t) {
      assert At(d, []) == At(t, []);
      if t.Node? {
        var k :| k in t.members && !(k in d.members && Covers(d.members[k], t.members[k]));
        assert At(t, [k]) == At(t.members[k], []);
        RootPresent(t.members[k]);
        forall p: Path | At(t.members[k], p).Some? ensures At(d.members[k], p) == At(t.members[k], p) {
          assert ([k] + p)[1..] == p;
          assert At(t, [k] + p) == At(t.members[k], p);
          assert At(d, [k] + p) == At(t, [k] + p);
        }
        CoversIsPathwise(d.members[k], t.members[k]);
        assert false;
      }
    }
  }

  lemma {:induction false} CoveredPath(d: Tree, t: Tree, p: Path)
    requires Covers(d, t) && At(t, p).Some?
    ensures At(d, p) == At(t, p)
    decreases |p|
  {
    if p != [] {
      CoveredPath(d.members[p[0]], t.members[p[0]], p[1..]);
    }
  }
}
