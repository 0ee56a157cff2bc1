/** Byte-wise string order, and sorting by a comparison. */
module Sorting {

  predicate Less(a: string, b: string) {
    b != [] && (a == [] || a[0] < b[0] || (a[0] == b[0] && Less(a[1..], b[1..])))
  }

  /** The first difference decides, and without one the shorter string is below. */
  predicate IsBelow(a: string, b: string) {
    (|a| < |b| && a == b[..|a|]) || exists i | 0 <= i < |a| :: i < |b| && a[..i] == b[..i] && a[i] < b[i]
  }

  lemma {:induction false} LessIff(a: string, b: string)
    ensures Less(a, b) <==> IsBelow(a, b)
    decreases |a|
  {
    if a != [] && b != [] && a[0] == b[0] {
      LessIff(a[1..], b[1..]);
      BelowBehind(a, b);
    } else if a != [] && b != [] {
      assert a[..0] == b[..0];
      assert forall i | 0 < i < |a| && i < |b| :: a[..i][0] == a[0] && b[..i][0] == b[0];
    }
  }

  lemma BelowBehind(a: string, b: string)
    requires a != [] && b != [] && a[0] == b[0]
    ensures IsBelow(a, b) <==> IsBelow(a[1..], b[1..])
  {
    var x, y := a[1..], b[1..];
    assert a == [a[0]] + x && b == [b[0]] + y;
    forall i | 0 <= i < |x| && i < |y| ensures x[..i] == y[..i] <==> a[..i + 1] == b[..i + 1] {
      assert a[..i + 1] == [a[0]] + x[..i] && b[..i + 1] == [b[0]] + y[..i];
    }
    if IsBelow(a, b) && !(|a| < |b| && a == b[..|a|]) {
      var i :| 0 <= i < |a| && i < |b| && a[..i] == b[..i] && a[i] < b[i];
      assert x[i - 1] < y[i - 1] && a[..i - 1 + 1] == b[..i - 1 + 1];
    }
    if IsBelow(x, y) && !(|x| < |y| && x == y[..|x|]) {
      var i :| 0 <= i < |x| && i < |y| && x[..i] == y[..i] && x[i] < y[i];
      assert a[i + 1] < b[i + 1] && a[..i + 1] == b[..i + 1];
    }
    if |a| < |b| { assert b[..|a|] == [b[0]] + y[..|x|]; }
  }

  lemma {:induction false} LessIsTransitive(a: string, b: string, c: string)
    requires Less(a, b) && Less(b, c)
    ensures Less(a, c)
    decreases |a|
  {
    if a != [] && a[0] == b[0] && b[0] == c[0] {
      LessIsTransitive(a[1..], b[1..], c[1..]);
    }
  }

  lemma {:induction false} LessIsTotal(a: string, b: string)
    ensures Less(a, b) || Less(b, a) || a == b
    decreases |a|
  {
    if a != [] && b != [] && a[0] == b[0] {
      LessIsTotal(a[1..], b[1..]);
      assert a == [a[0]] + a[1..] && b == [b[0]] + b[1..];
    }
  }

  lemma {:induction false} LessIsIrreflexive(a: string)
    ensures !Less(a, a)
    decreases |a|
  {
    if a != [] {
      LessIsIrreflexive(a[1..]);
    }
  }

  lemma LessIsAsymmetric(a: string, b: string)
    requires Less(a, b)
    ensures !Less(b, a) && a != b
  {
    if Less(b, a) || a == b {
      if Less(b, a) { LessIsTransitive(a, b, a); }
      LessIsIrreflexive(a);
    }
  }

  lemma NotLessIsTransitive(a: string, b: string, c: string)
    requires !Less(b, a) && !Less(c, b)
    ensures !Less(c, a)
  {
    LessIsTotal(a, b);
    LessIsTotal(b, c);
    if a != b && b != c {
      LessIsTransitive(a, b, c);
    }
    if Less(c, a) {
      LessIsAsymmetric(c, a);
    }
  }

  // Comparisons.

  /** What sorting asks of a comparison: strict, and ties chain. */
  ghost predicate IsWeakOrder<T(!new)>(below: (T, T) -> bool) {
    && (forall a: T, b: T :: below(a, b) ==> !below(b, a))
    && (forall a: T, b: T, c: T :: !below(b, a) && !below(c, b) ==> !below(c, a))
  }

  lemma LessIsWeakOrder()
    ensures IsWeakOrder(Less)
  {
    forall a: string, b: string | Less(a, b) ensures !Less(b, a) {
      LessIsAsymmetric(a, b);
    }
    forall a: string, b: string, c: string | !Less(b, a) && !Less(c, b) ensures !Less(c, a) {
      NotLessIsTransitive(a, b, c);
    }
  }

  /** No element is below an earlier one. */
  predicate Ordered<T>(s: seq<T>, below: (T, T) -> bool) {
    forall i, j | 0 <= i < j < |s| :: !below(s[j], s[i])
  }

  /** Each element is below all later ones. */
  predicate StrictlyOrdered<T>(s: seq<T>, below: (T, T) -> bool) {
    forall i, j | 0 <= i < j < |s| :: below(s[i], s[j])
  }

  /** No two elements tie. */
  predicate Untied<T>(s: seq<T>, below: (T, T) -> bool) {
    forall i, j | 0 <= i < j < |s| :: below(s[i], s[j]) || below(s[j], s[i])
  }

  // Sorting.

  function Insert<T>(x: T, s: seq<T>, below: (T, T) -> bool): (r: seq<T>)
    ensures multiset(r) == multiset(s) + multiset{x}
  {
    if s == [] then [x]
    else if below(s[0], x) then
      assert s == [s[0]] + s[1..];
      [s[0]] + Insert(x, s[1..], below)
    else [x] + s
  }

  /** sort.Slice and sort.Strings, up to the order they give to elements that tie. */
  function Sort<T>(s: seq<T>, below: (T, T) -> bool): (r: seq<T>)
    ensures multiset(r) == multiset(s)
  {
    if s == [] then []
    else
      assert s == [s[0]] + s[1..];
      Insert(s[0], Sort(s[1..], below), below)
  }

  lemma MemberOfMultiset<T>(s: seq<T>, r: seq<T>)
    requires multiset(s) == multiset(r)
    ensures forall x | x in s :: x in r
  {
    forall x | x in s ensures x in r {
      assert x in multiset(s);
    }
  }

  lemma InsertedFrom<T>(x: T, s: seq<T>, below: (T, T) -> bool, y: T)
    requires y in Insert(x, s, below)
    ensures y == x || y in s
  {
    assert y in multiset(Insert(x, s, below));
  }

  lemma {:induction false} InsertOrders<T(!new)>(x: T, s: seq<T>, below: (T, T) -> bool)
    requires IsWeakOrder(below) && Ordered(s, below)
    ensures Ordered(Insert(x, s, below), below)
    decreases |s|
  {
    if s != [] {
      if below(s[0], x) {
        InsertOrders(x, s[1..], below);
        var rest := Insert(x, s[1..], below);
        forall y | y in rest ensures !below(y, s[0]) {
          InsertedFrom(x, s[1..], below, y);
          if y != x {
            var j :| 0 <= j < |s[1..]| && s[1..][j] == y;
            assert s[j + 1] == y;
          }
        }
      } else {
        forall y | y in s ensures !below(y, x) {
          var j :| 0 <= j < |s| && s[j] == y;
          assert j > 0 ==> !below(s[j], s[0]);
        }
      }
    }
  }

  lemma {:induction false} SortOrders<T(!new)>(s: seq<T>, below: (T, T) -> bool)
    requires IsWeakOrder(below)
    ensures Ordered(Sort(s, below), below)
    decreases |s|
  {
    if s != [] {
      SortOrders(s[1..], below);
      InsertOrders(s[0], Sort(s[1..], below), below);
    }
  }

  /** Elements that do not tie come out strictly ordered. */
  lemma SortSorts<T(!new)>(s: seq<T>, below: (T, T) -> bool)
    requires IsWeakOrder(below) && Untied(s, below) && forall i, j | 0 <= i < j < |s| :: s[i] != s[j]
    ensures StrictlyOrdered(Sort(s, below), below)
  {
    var r := Sort(s, below);
    SortOrders(s, below);
    OnceEach(s);
    forall i, j | 0 <= i < j < |r| ensures below(r[i], r[j]) {
      assert r[i] in multiset(s) && r[j] in multiset(s);
      var a :| 0 <= a < |s| && s[a] == r[i];
      var b :| 0 <= b < |s| && s[b] == r[j];
      if a == b {
        TwiceIn(r, i, j);
      }
    }
  }

  lemma {:induction false} OnceEach<T>(s: seq<T>)
    requires forall i, j | 0 <= i < j < |s| :: s[i] != s[j]
    ensures forall x | x in s :: multiset(s)[x] == 1
    decreases |s|
  {
    if s != [] {
      var front, last := s[..|s| - 1], s[|s| - 1];
      assert s == front + [last];
      OnceEach(front);
      forall x | x in s ensures multiset(s)[x] == 1 {
        assert multiset(s)[x] == multiset(front)[x] + if x == last then 1 else 0;
      }
    }
  }

  lemma TwiceIn<T>(r: seq<T>, i: nat, j: nat)
    requires i < j < |r| && r[i] == r[j]
    ensures multiset(r)[r[i]] >= 2
  {
    assert r == r[..j] + [r[j]] + r[j + 1..];
    assert r[..j][i] == r[i];
    assert r[i] in multiset(r[..j]);
  }

  // What an order fixes.

  lemma SameFirst(a: seq<string>, b: seq<string>)
    requires Ordered(a, Less) && Ordered(b, Less) && multiset(a) == multiset(b) && a != [] && b != []
    ensures a[0] == b[0]
  {
    assert a[0] in multiset(b) && b[0] in multiset(a);
    var i :| 0 <= i < |b| && b[i] == a[0];
    var j :| 0 <= j < |a| && a[j] == b[0];
    LessIsTotal(a[0], b[0]);
    LessIsIrreflexive(a[0]);
    assert j > 0 ==> !Less(a[j], a[0]);
    assert i > 0 ==> !Less(b[i], b[0]);
  }

  lemma TailMultiset<T>(a: seq<T>)
    requires a != []
    ensures multiset(a[1..]) == multiset(a) - multiset{a[0]}
  {
    assert a == [a[0]] + a[1..];
  }

  /** Sorting strings gives one result for all arrangements of them. */
  lemma {:induction false} OrderedIsUnique(a: seq<string>, b: seq<string>)
    requires Ordered(a, Less) && Ordered(b, Less) && multiset(a) == multiset(b)
    ensures a == b
    decreases |a|
  {
    hide Less;
    assert |multiset(a)| == |a| && |multiset(b)| == |b|;
    if a != [] {
      SameFirst(a, b);
      TailMultiset(a);
      TailMultiset(b);
      OrderedIsUnique(a[1..], b[1..]);
      assert a == [a[0]] + a[1..] && b == [b[0]] + b[1..];
    }
  }

  /** A strictly ordered listing is fixed by what it lists. */
  lemma {:induction false} SortedListingUnique<T(!new)>(a: seq<T>, b: seq<T>, below: (T, T) -> bool)
    requires IsWeakOrder(below) && StrictlyOrdered(a, below) && StrictlyOrdered(b, below)
    requires forall x :: x in a <==> x in b
    ensures a == b
    decreases |a|
  {
    if a == [] {
      if b != [] { HasMember(b); }
    } else {
      assert a[0] in b;
      assert b[0] in a;
      forall x ensures x in a[1..] <==> x in b[1..] {
        TailMember(a, x, below);
        TailMember(b, x, below);
      }
      SortedListingUnique(a[1..], b[1..], below);
      assert a == [a[0]] + a[1..] && b == [b[0]] + b[1..];
    }
  }

  lemma HasMember<T>(s: seq<T>)
    requires s != []
    ensures exists x :: x in s
  {
    assert s[0] in s;
  }

  lemma TailMember<T(!new)>(s: seq<T>, x: T, below: (T, T) -> bool)
    requires s != [] && IsWeakOrder(below) && StrictlyOrdered(s, below)
    ensures x in s[1..] <==> x in s && x != s[0]
  {
    if x in s[1..] {
      var j :| 0 <= j < |s[1..]| && s[1..][j] == x;
      assert below(s[0], s[j + 1]);
    }
    if x in s && x != s[0] {
      var j :| 0 <= j < |s| && s[j] == x;
      assert s[1..][j - 1] == x;
    }
  }
}
