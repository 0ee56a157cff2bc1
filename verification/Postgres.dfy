/** The keyword/value connection string, and when a reader gets back what went in. */
module Postgres {
  import opened Trees
  import opened Naming
  import opened Sorting

  type Params = map<string, string>

  class ParamMap {
    var entries: Params

    constructor (entries: Params)
      ensures this.entries == entries
    {
      this.entries := entries;
    }
  }

  datatype PostgresSpec = PostgresSpec(host: string, port: int, user: string, database: string)

  function Value(kv: Params, key: string): string { if key in kv then kv[key] else "" }

  function Entry(kv: Params, key: string): Option<string> { if key in kv then Some(kv[key]) else None }

  const RESERVED: set<string> := {"host", "port", "user", "password", "dbname", "sslmode"}

  /** What stands under a key after a call: the database's own values win, the port only if there is one,
      and sslmode is filled in when empty. */
  function Given(p: PostgresSpec, passwordEnvVar: string, params: Params, key: string): Option<string> {
    match key
    case "host" => Some(p.host)
    case "port" => if p.port > 0 then Some(Decimal(p.port)) else Entry(params, key)
    case "user" => Some(p.user)
    case "password" => Some("$(" + passwordEnvVar + ")")
    case "dbname" => Some(p.database)
    case "sslmode" => if Value(params, key) == "" then Some("disable") else Entry(params, key)
    case _ => Entry(params, key)
  }

  ghost predicate Overridden(p: PostgresSpec, passwordEnvVar: string, before: Params, after: Params) {
    forall key: string :: Entry(after, key) == Given(p, passwordEnvVar, before, key)
  }

  datatype Pair = Pair(key: string, value: string)

  function Render(e: Pair): string { e.key + "='" + e.value + "'" }

  function RenderAll(es: seq<Pair>): (r: seq<string>)
    ensures |r| == |es|
  {
    if es == [] then [] else [Render(es[0])] + RenderAll(es[1..])
  }

  function Join(ss: seq<string>): string {
    if ss == [] then "" else if |ss| == 1 then ss[0] else ss[0] + " " + Join(ss[1..])
  }

  /** es lists the non-empty entries of kv, each once. */
  ghost predicate ListsNonEmpty(es: seq<Pair>, kv: Params) {
    && (forall i, j | 0 <= i < j < |es| :: es[i].key != es[j].key)
    && (forall e: Pair :: e in es <==> e.key in kv && kv[e.key] == e.value && e.value != "")
  }

  function Text(es: seq<Pair>): string { Join(Sort(RenderAll(es), Less)) }

  /** The loop over the map, in any order. */
  method NonEmptyEntries(kv: Params) returns (kvs: seq<string>, ghost es: seq<Pair>)
    ensures kvs == RenderAll(es) && ListsNonEmpty(es, kv)
  {
    kvs, es := [], [];
    var todo := kv.Keys;
    while todo != {}
      invariant todo <= kv.Keys
      invariant kvs == RenderAll(es)
      invariant forall i, j | 0 <= i < j < |es| :: es[i].key != es[j].key
      invariant forall e: Pair :: e in es <==> e.key in kv && e.key !in todo && kv[e.key] == e.value && e.value != ""
      decreases |todo|
    {
      var k :| k in todo;
      ghost var before := es;
      if kv[k] != "" {
        RenderAppend(es, Pair(k, kv[k]));
        kvs := kvs + [Render(Pair(k, kv[k]))];
        es := es + [Pair(k, kv[k])];
        assert forall i | 0 <= i < |before| :: before[i] in before && es[i] == before[i];
        assert forall e: Pair :: e in es <==> e in before || e == Pair(k, kv[k]);
      }
      todo := todo - {k};
    }
  }

  function EntriesOf(params: ParamMap?): Params
    reads params
  {
    if params == null then map[] else params.entries
  }

  method ConnectionString(p: PostgresSpec, params: ParamMap?, passwordEnvVar: string)
    returns (s: string, ghost after: Params, ghost es: seq<Pair>)
    modifies params
    ensures params != null ==> params.entries == after
    ensures Entry(after, "host") == Some(p.host) && Entry(after, "user") == Some(p.user) && Entry(after, "dbname") == Some(p.database)
    ensures Entry(after, "password") == Some("$(" + passwordEnvVar + ")")
    ensures var before := old(EntriesOf(params));
            && Entry(after, "port") == (if p.port > 0 then Some(Decimal(p.port)) else Entry(before, "port"))
            && Entry(after, "sslmode") == (if Value(before, "sslmode") == "" then Some("disable") else Entry(before, "sslmode"))
            && (forall key | key !in RESERVED :: Entry(after, key) == Entry(before, key))
            && Overridden(p, passwordEnvVar, before, after)
    ensures ListsNonEmpty(es, after) && s == Text(es)
  {
    var kv := params;
    if kv == null {
      kv := new ParamMap(map[]);
    }
    ghost var before := kv.entries;
    kv.entries := kv.entries["host" := p.host];
    if p.port > 0 {
      kv.entries := kv.entries["port" := Decimal(p.port)];
    }
    kv.entries := kv.entries["user" := p.user];
    kv.entries := kv.entries["password" := "$(" + passwordEnvVar + ")"];
    kv.entries := kv.entries["dbname" := p.database];
    if Value(kv.entries, "sslmode") == "" {
      kv.entries := kv.entries["sslmode" := "disable"];
    }
    var all := kv.entries;
    after := all;
    AssignmentsOverride(p, passwordEnvVar, before, after);
    GivenReserved(p, passwordEnvVar, before);
    hide Given;
    var kvs;
    kvs, es := NonEmptyEntries(all);
    s := Join(Sort(kvs, Less));
  }

  /** The assignments in their order come to the entries given. */
  lemma AssignmentsOverride(p: PostgresSpec, passwordEnvVar: string, before: Params, after: Params)
    requires var kv := before["host" := p.host];
             var kv := if p.port > 0 then kv["port" := Decimal(p.port)] else kv;
             var kv := kv["user" := p.user]["password" := "$(" + passwordEnvVar + ")"]["dbname" := p.database];
             after == if Value(kv, "sslmode") == "" then kv["sslmode" := "disable"] else kv
    ensures Overridden(p, passwordEnvVar, before, after)
  {
    forall key: string ensures Entry(after, key) == Given(p, passwordEnvVar, before, key) {
    }
  }

  lemma {:induction false} RenderAppend(es: seq<Pair>, e: Pair)
    ensures RenderAll(es + [e]) == RenderAll(es) + [Render(e)]
    decreases |es|
  {
    if es != [] {
      RenderAppend(es[1..], e);
      assert (es + [e])[1..] == es[1..] + [e];
    }
  }

  lemma SameEntries(a: Params, b: Params)
    requires forall key :: Entry(a, key) == Entry(b, key)
    ensures a == b
  {
    assert forall key :: key in a <==> Entry(a, key).Some?;
    assert forall key :: key in b <==> Entry(b, key).Some?;
    forall key | key in a ensures a[key] == b[key] {
      assert Entry(a, key) == Entry(b, key);
    }
  }

  /** The call edits the map it is given. A later call, for whatever database, overrides all of that but
      the port, which it sets only when it has one. */
  lemma OverrideAgain(p: PostgresSpec, passwordEnvVar: string, q: PostgresSpec, passwordEnvVar': string,
                      params: Params, once: Params, twice: Params, direct: Params)
    requires Overridden(p, passwordEnvVar, params, once) && Overridden(q, passwordEnvVar', once, twice)
    requires Overridden(q, passwordEnvVar', params, direct)
    ensures twice == direct <==> q.port > 0 || p.port <= 0 || Entry(params, "port") == Some(Decimal(p.port))
  {
    hide Given;
    forall key: string | key != "port" ensures Entry(twice, key) == Entry(direct, key) {
      GivenAgain(p, passwordEnvVar, q, passwordEnvVar', params, once, key);
    }
    GivenPort(p, passwordEnvVar, params);
    GivenPort(q, passwordEnvVar', once);
    GivenPort(q, passwordEnvVar', params);
    assert Entry(once, "port") == Given(p, passwordEnvVar, params, "port");
    assert Entry(twice, "port") == Given(q, passwordEnvVar', once, "port");
    assert Entry(direct, "port") == Given(q, passwordEnvVar', params, "port");
    if Entry(twice, "port") == Entry(direct, "port") {
      SameEntries(twice, direct);
    }
  }

  lemma GivenPort(p: PostgresSpec, passwordEnvVar: string, params: Params)
    ensures Given(p, passwordEnvVar, params, "port") == if p.port > 0 then Some(Decimal(p.port)) else Entry(params, "port")
  {
  }

  lemma GivenAgain(p: PostgresSpec, passwordEnvVar: string, q: PostgresSpec, passwordEnvVar': string, params: Params,
                   once: Params, key: string)
    requires Overridden(p, passwordEnvVar, params, once) && key != "port"
    ensures Given(q, passwordEnvVar', once, key) == Given(q, passwordEnvVar', params, key)
  {
    assert Entry(once, key) == Given(p, passwordEnvVar, params, key);
  }

  /** Two calls of ConnectionString with one map give the same string, whatever the order of the map. */
  lemma SecondCallAgrees(p: PostgresSpec, passwordEnvVar: string, params: Params, once: Params, twice: Params,
                         first: seq<Pair>, second: seq<Pair>)
    requires Overridden(p, passwordEnvVar, params, once) && Overridden(p, passwordEnvVar, once, twice)
    requires ListsNonEmpty(first, once) && ListsNonEmpty(second, twice)
    ensures Text(first) == Text(second)
  {
    hide Overridden, ListsNonEmpty, Text;
    OverrideAgain(p, passwordEnvVar, p, passwordEnvVar, params, once, twice, once);
    TextIsDetermined(first, second, once);
  }

  /** The string does not depend on the order the map was read in. */
  lemma TextIsDetermined(a: seq<Pair>, b: seq<Pair>, kv: Params)
    requires ListsNonEmpty(a, kv) && ListsNonEmpty(b, kv)
    ensures Text(a) == Text(b)
  {
    SameListing(a, b);
    RenderMultiset(a, b);
    LessIsWeakOrder();
    SortOrders(RenderAll(a), Less);
    SortOrders(RenderAll(b), Less);
    OrderedIsUnique(Sort(RenderAll(a), Less), Sort(RenderAll(b), Less));
  }

  lemma {:induction false} SameListing(a: seq<Pair>, b: seq<Pair>)
    requires forall i, j | 0 <= i < j < |a| :: a[i].key != a[j].key
    requires forall i, j | 0 <= i < j < |b| :: b[i].key != b[j].key
    requires forall e :: e in a <==> e in b
    ensures multiset(a) == multiset(b)
  {
    CountOnce(a);
    CountOnce(b);
    forall e ensures multiset(a)[e] == multiset(b)[e] {
      assert e in a <==> e in b;
    }
  }

  lemma {:induction false} CountOnce(a: seq<Pair>)
    requires forall i, j | 0 <= i < j < |a| :: a[i].key != a[j].key
    ensures forall e :: multiset(a)[e] == if e in a then 1 else 0
    decreases |a|
  {
    if a != [] {
      var front, last := a[..|a| - 1], a[|a| - 1];
      assert a == front + [last];
      CountOnce(front);
      forall e ensures multiset(a)[e] == if e in a then 1 else 0 {
        assert multiset(a)[e] == multiset(front)[e] + if e == last then 1 else 0;
        assert e in a <==> e in front || e == last;
      }
    }
  }

  lemma {:induction false} RenderMultiset(a: seq<Pair>, b: seq<Pair>)
    requires multiset(a) == multiset(b)
    ensures multiset(RenderAll(a)) == multiset(RenderAll(b))
    decreases |a|
  {
    assert |multiset(a)| == |a| && |multiset(b)| == |b|;
    if a != [] {
      hide RenderAll, Render, Without;
      assert a[0] in multiset(b);
      var j :| 0 <= j < |b| && b[j] == a[0];
      var rest := Without(b, j);
      WithoutOne(a, 0);
      WithoutOne(b, j);
      WithoutFirst(a);
      RenderMultiset(a[1..], rest);
      RenderSplit(b, j);
      RenderFirst(a);
    }
  }

  lemma WithoutOne(b: seq<Pair>, j: nat)
    requires j < |b|
    ensures multiset(Without(b, j)) == multiset(b) - multiset{b[j]}
  {
    assert b == b[..j] + [b[j]] + b[j + 1..];
    assert multiset(b) == multiset(b[..j]) + multiset{b[j]} + multiset(b[j + 1..]);
  }

  lemma RenderFirst(b: seq<Pair>)
    requires b != []
    ensures multiset(RenderAll(b)) == multiset{Render(b[0])} + multiset(RenderAll(b[1..]))
  {
    hide Render;
    assert RenderAll(b) == [Render(b[0])] + RenderAll(b[1..]);
  }

  function Without(b: seq<Pair>, j: nat): (r: seq<Pair>)
    requires j < |b|
    ensures |r| == |b| - 1
  {
    b[..j] + b[j + 1..]
  }

  lemma WithoutLater(b: seq<Pair>, j: nat)
    requires 0 < j < |b|
    ensures Without(b, j)[0] == b[0] && Without(b, j)[1..] == Without(b[1..], j - 1)
  {
    assert b[1..][..j - 1] == b[1..j] && b[1..][j..] == b[j + 1..];
  }

  lemma {:induction false} RenderSplit(b: seq<Pair>, j: nat)
    requires j < |b|
    ensures multiset(RenderAll(b)) == multiset{Render(b[j])} + multiset(RenderAll(Without(b, j)))
    decreases |b|
  {
    hide RenderAll, Render, Without;
    RenderFirst(b);
    if j == 0 {
      WithoutFirst(b);
    } else {
      RenderSplit(b[1..], j - 1);
      WithoutLater(b, j);
      RenderFirst(Without(b, j));
    }
  }

  lemma WithoutFirst(b: seq<Pair>)
    requires b != []
    ensures Without(b, 0) == b[1..]
  {
  }

  // Reading the string back: pairs separated by blanks, blanks allowed around '=', values in single
  // quotes, backslash taking the next character as it is.

  predicate Blank(c: char) { c as int in {9, 10, 11, 12, 13, 32} }

  function SkipBlanks(s: string): (r: string)
    ensures |r| <= |s| && (r != "" ==> !Blank(r[0]))
  {
    if s != "" && Blank(s[0]) then SkipBlanks(s[1..]) else s
  }

  predicate CleanKey(k: string) { forall i | 0 <= i < |k| :: k[i] != '=' && !Blank(k[i]) }

  function ReadName(s: string): (r: (string, string))
    ensures |r.0| + |r.1| == |s| && CleanKey(r.0)
  {
    if s == "" || s[0] == '=' || Blank(s[0]) then ("", s)
    else var (name, rest) := ReadName(s[1..]); ([s[0]] + name, rest)
  }

  predicate Special(c: char) { c == '\'' || c == '\\' }

  predicate CleanValue(v: string) { forall i | 0 <= i < |v| :: !Special(v[i]) }

  function Specials(v: string): nat {
    if v == "" then 0 else (if Special(v[0]) then 1 else 0) + Specials(v[1..])
  }

  lemma {:induction false} SpecialsZero(v: string)
    ensures Specials(v) == 0 <==> CleanValue(v)
    decreases |v|
  {
    if v != "" {
      SpecialsZero(v[1..]);
      assert CleanValue(v) <==> !Special(v[0]) && CleanValue(v[1..]) by {
        assert v == [v[0]] + v[1..];
      }
    }
  }

  /** The value up to its closing quote, and what follows. */
  function ReadQuoted(s: string): (r: Option<(string, string)>)
    ensures r.Some? ==> |s| >= |r.value.0| + Specials(r.value.0) + 1 + |r.value.1|
    decreases |s|
  {
    if s == "" then None
    else if s[0] == '\'' then Some(("", s[1..]))
    else
      var n := if s[0] == '\\' then 2 else 1;
      if |s| < n then None
      else
        var tail := ReadQuoted(s[n..]);
        if tail.None? then None
        else
          var v := [s[n - 1]] + tail.value.0;
          assert v[1..] == tail.value.0;
          Some((v, tail.value.1))
  }

  function ReadPair(s: string): (r: Option<(Pair, string)>)
    ensures r.Some? ==> CleanKey(r.value.0.key) && |s| + 1 >= Cost(r.value.0) + |r.value.1|
  {
    var (name, afterName) := ReadName(s);
    var eq := SkipBlanks(afterName);
    if eq == "" || eq[0] != '=' then None
    else
      var quote := SkipBlanks(eq[1..]);
      if quote == "" || quote[0] != '\'' then None
      else
        var value := ReadQuoted(quote[1..]);
        if value.None? then None else Some((Pair(name, value.value.0), value.value.1))
  }

  function Cost(e: Pair): nat { |e.key| + |e.value| + Specials(e.value) + 4 }

  function TotalCost(es: seq<Pair>): nat {
    if es == [] then 0 else Cost(es[0]) + TotalCost(es[1..])
  }

  function ReadPairs(s: string): (r: Option<seq<Pair>>)
    ensures r.Some? ==> |s| + 1 >= TotalCost(r.value) && forall i | 0 <= i < |r.value| :: CleanKey(r.value[i].key)
    decreases |s|
  {
    var t := SkipBlanks(s);
    if t == "" then Some([])
    else
      var first := ReadPair(t);
      if first.None? then None
      else
        var (e, rest) := first.value;
        if rest == "" then Some([e])
        else if !Blank(rest[0]) then None
        else
          var more := ReadPairs(rest[1..]);
          if more.None? then None
          else
            assert ([e] + more.value)[1..] == more.value;
            Some([e] + more.value)
  }

  /** Later settings win. */
  function ToMap(es: seq<Pair>): Params {
    if es == [] then map[] else ToMap(es[..|es| - 1])[es[|es| - 1].key := es[|es| - 1].value]
  }

  function Read(s: string): Option<Params> {
    var es := ReadPairs(s);
    if es.None? then None else Some(ToMap(es.value))
  }

  function NonEmpty(kv: Params): Params { map k | k in kv && kv[k] != "" :: kv[k] }

  predicate Clean(kv: Params) {
    forall k | k in kv && kv[k] != "" :: CleanKey(k) && CleanValue(kv[k])
  }

  // Clean entries are read back.

  lemma {:induction false} ReadQuotedClean(v: string, rest: string)
    requires CleanValue(v)
    ensures ReadQuoted(v + "'" + rest) == Some((v, rest))
    decreases |v|
  {
    var s := v + "'" + rest;
    if v == "" {
      assert s[1..] == rest;
    } else {
      assert s[1..] == v[1..] + "'" + rest;
      ReadQuotedClean(v[1..], rest);
      assert [v[0]] + v[1..] == v;
    }
  }

  /** A value comes back from between its quotes exactly when it has nothing that should have been escaped. */
  lemma QuotedValueIff(v: string, rest: string)
    ensures ReadQuoted(v + "'" + rest) == Some((v, rest)) <==> CleanValue(v)
  {
    if CleanValue(v) {
      ReadQuotedClean(v, rest);
    } else {
      SpecialsZero(v);
    }
  }

  lemma {:induction false} ReadNameClean(k: string, rest: string)
    requires CleanKey(k)
    ensures ReadName(k + "=" + rest) == (k, "=" + rest)
    decreases |k|
  {
    var s := k + "=" + rest;
    if k == "" {
      assert s == "=" + rest;
    } else {
      assert s[1..] == k[1..] + "=" + rest;
      ReadNameClean(k[1..], rest);
      assert [k[0]] + k[1..] == k;
    }
  }

  lemma ReadPairClean(e: Pair, rest: string)
    requires CleanKey(e.key) && CleanValue(e.value)
    ensures ReadPair(Render(e) + rest) == Some((e, rest))
    ensures Render(e) + rest != "" && SkipBlanks(Render(e) + rest) == Render(e) + rest
  {
    var s, tail := Render(e) + rest, "'" + e.value + "'" + rest;
    assert s == e.key + "=" + tail;
    ReadNameClean(e.key, tail);
    assert ("=" + tail)[1..] == tail;
    assert tail[1..] == e.value + "'" + rest;
    ReadQuotedClean(e.value, rest);
    StartsClean(e.key, tail);
    hide ReadName, ReadQuoted, Render, CleanKey, CleanValue;
  }

  lemma StartsClean(key: string, tail: string)
    requires CleanKey(key)
    ensures SkipBlanks(key + "=" + tail) == key + "=" + tail
  {
  }

  lemma {:induction false} ReadJoined(es: seq<Pair>)
    requires forall i | 0 <= i < |es| :: CleanKey(es[i].key) && CleanValue(es[i].value)
    ensures ReadPairs(Join(RenderAll(es))) == Some(es)
    decreases |es|
  {
    if es != [] {
      var rest := if |es| == 1 then "" else " " + Join(RenderAll(es[1..]));
      assert Join(RenderAll(es)) == Render(es[0]) + rest;
      ReadPairClean(es[0], rest);
      if |es| == 1 {
        assert es == [es[0]];
      } else {
        assert es == [es[0]] + es[1..];
        assert rest[0] == ' ' && rest[1..] == Join(RenderAll(es[1..]));
        ReadJoined(es[1..]);
      }
    }
  }

  predicate TextBelow(a: Pair, b: Pair) { Less(Render(a), Render(b)) }

  lemma {:induction false} RenderInsert(e: Pair, es: seq<Pair>)
    ensures RenderAll(Insert(e, es, TextBelow)) == Insert(Render(e), RenderAll(es), Less)
    decreases |es|
  {
    if es != [] && Less(Render(es[0]), Render(e)) {
      RenderInsert(e, es[1..]);
    }
  }

  lemma {:induction false} RenderSort(es: seq<Pair>)
    ensures RenderAll(Sort(es, TextBelow)) == Sort(RenderAll(es), Less)
    decreases |es|
  {
    if es != [] {
      RenderSort(es[1..]);
      RenderInsert(es[0], Sort(es[1..], TextBelow));
    }
  }

  lemma {:induction false} ToMapOfListing(es: seq<Pair>, kv: Params)
    requires forall e | e in es :: e.key in kv && kv[e.key] == e.value
    ensures ToMap(es).Keys == set e | e in es :: e.key
    ensures forall k | k in ToMap(es) :: k in kv && ToMap(es)[k] == kv[k]
    decreases |es|
  {
    if es != [] {
      var front, last := es[..|es| - 1], es[|es| - 1];
      assert es == front + [last];
      ToMapOfListing(front, kv);
    }
  }

  // What is read back was clean.

  lemma {:induction false} ToMapMember(es: seq<Pair>, k: string)
    requires k in ToMap(es)
    ensures Pair(k, ToMap(es)[k]) in es
    decreases |es|
  {
    var front, last := es[..|es| - 1], es[|es| - 1];
    assert last in es;
    if k != last.key {
      ToMapMember(front, k);
    }
  }

  lemma {:induction false} CostIsMonotone(a: seq<Pair>, b: seq<Pair>)
    requires multiset(a) <= multiset(b)
    ensures TotalCost(a) <= TotalCost(b)
    decreases |a|
  {
    if a != [] {
      assert a[0] in multiset(b);
      var j :| 0 <= j < |b| && b[j] == a[0];
      var rest := Without(b, j);
      WithoutOne(a, 0);
      WithoutOne(b, j);
      WithoutFirst(a);
      CostIsMonotone(a[1..], rest);
      CostSplit(b, j);
    }
  }

  lemma {:induction false} CostSplit(b: seq<Pair>, j: nat)
    requires j < |b|
    ensures TotalCost(b) == Cost(b[j]) + TotalCost(Without(b, j))
    decreases |b|
  {
    hide Without, Cost;
    if j == 0 {
      WithoutFirst(b);
    } else {
      CostSplit(b[1..], j - 1);
      WithoutLater(b, j);
    }
  }

  function AllSpecials(es: seq<Pair>): nat {
    if es == [] then 0 else Specials(es[0].value) + AllSpecials(es[1..])
  }

  /** The text is as long as its entries need, with nothing spent on escapes. */
  lemma {:induction false} JoinedLength(es: seq<Pair>)
    requires es != []
    ensures |Join(RenderAll(es))| + 1 + AllSpecials(es) == TotalCost(es)
    decreases |es|
  {
    if |es| > 1 {
      JoinedLength(es[1..]);
    }
  }

  lemma {:induction false} NoSpecials(es: seq<Pair>)
    requires AllSpecials(es) == 0
    ensures forall i | 0 <= i < |es| :: CleanValue(es[i].value)
    decreases |es|
  {
    if es != [] {
      SpecialsZero(es[0].value);
      NoSpecials(es[1..]);
    }
  }

  /** If the text of a listing reads back as the listing's own entries, every entry was clean: any
      escape would have cost a character the text does not have. */
  lemma ReadBackMeansClean(ps: seq<Pair>, kv: Params)
    requires ListsNonEmpty(ps, kv)
    requires Read(Join(RenderAll(ps))) == Some(NonEmpty(kv))
    ensures Clean(kv)
  {
    var es := ReadPairs(Join(RenderAll(ps))).value;
    forall e | e in ps ensures e in es {
      assert e.key in ToMap(es);
      ToMapMember(es, e.key);
    }
    CountOnce(ps);
    assert multiset(ps) <= multiset(es);
    CostIsMonotone(ps, es);
    if ps != [] {
      JoinedLength(ps);
      NoSpecials(ps);
    }
    forall k | k in kv && kv[k] != "" ensures CleanKey(k) && CleanValue(kv[k]) {
      assert Pair(k, kv[k]) in ps;
      assert Pair(k, kv[k]) in es;
      var i :| 0 <= i < |es| && es[i] == Pair(k, kv[k]);
      var j :| 0 <= j < |ps| && ps[j] == Pair(k, kv[k]);
      assert CleanKey(es[i].key) && CleanValue(ps[j].value);
    }
  }

  /** Main result: the connection string reads back as the non-empty parameters, overrides and
      default included, exactly when no key has a blank or '=' and no value a quote or backslash. */
  lemma RoundTripIffClean(es: seq<Pair>, kv: Params)
    requires ListsNonEmpty(es, kv)
    ensures Read(Text(es)) == Some(NonEmpty(kv)) <==> Clean(kv)
  {
    var ps := Sort(es, TextBelow);
    RenderSort(es);
    SortedListing(es, ps, kv);
    if Clean(kv) {
      CleanReadsBack(ps, kv);
    }
    if Read(Text(es)) == Some(NonEmpty(kv)) {
      ReadBackMeansClean(ps, kv);
    }
  }

  lemma CleanReadsBack(ps: seq<Pair>, kv: Params)
    requires ListsNonEmpty(ps, kv) && Clean(kv)
    ensures Read(Join(RenderAll(ps))) == Some(NonEmpty(kv))
  {
    hide RenderAll, Join, ReadPairs, ToMap, NonEmpty;
    forall i | 0 <= i < |ps| ensures CleanKey(ps[i].key) && CleanValue(ps[i].value) {
      assert ps[i] in ps;
    }
    ReadJoined(ps);
    MapOfListing(ps, kv);
  }

  lemma MapOfListing(ps: seq<Pair>, kv: Params)
    requires ListsNonEmpty(ps, kv)
    ensures ToMap(ps) == NonEmpty(kv)
  {
    hide ToMap;
    ToMapOfListing(ps, kv);
    forall k ensures k in ToMap(ps) <==> k in NonEmpty(kv) {
      if k in NonEmpty(kv) { assert Pair(k, kv[k]) in ps; }
    }
  }

  lemma SortedListing(es: seq<Pair>, ps: seq<Pair>, kv: Params)
    requires ListsNonEmpty(es, kv) && multiset(es) == multiset(ps)
    ensures ListsNonEmpty(ps, kv)
  {
    MemberOfMultiset(es, ps);
    MemberOfMultiset(ps, es);
    CountOnce(es);
    forall i, j | 0 <= i < j < |ps| ensures ps[i].key != ps[j].key {
      if ps[i].key == ps[j].key {
        assert ps[i] in es && ps[j] in es;
        TwiceCounted(ps, i, j);
      }
    }
  }

  lemma TwiceCounted(ps: seq<Pair>, i: nat, j: nat)
    requires i < j < |ps| && ps[i] == ps[j]
    ensures multiset(ps)[ps[i]] >= 2
  {
    assert ps == ps[..j] + [ps[j]] + ps[j + 1..];
    assert ps[i] in ps[..j];
    assert multiset(ps) == multiset(ps[..j]) + multiset{ps[j]} + multiset(ps[j + 1..]);
  }

  // From what goes in to what is read back.

  /** Keys and values fit into quotes as they are. */
  predicate CleanInput(p: PostgresSpec, passwordEnvVar: string, params: Params) {
    && CleanValue(p.host) && CleanValue(p.user) && CleanValue(p.database) && CleanValue(passwordEnvVar)
    && (p.port <= 0 ==> CleanValue(Value(params, "port")))
    && CleanValue(Value(params, "sslmode"))
    && forall k | k in params && params[k] != "" && k !in RESERVED ::
         CleanKey(k) && CleanValue(params[k])
  }

  /** Exactly the non-empty ones of the entries given. */
  ghost predicate HoldsGiven(read: Params, p: PostgresSpec, passwordEnvVar: string, params: Params) {
    forall key: string :: Entry(read, key) == NonEmptyEntry(Given(p, passwordEnvVar, params, key))
  }

  function NonEmptyEntry(e: Option<string>): Option<string> { if e == Some("") then None else e }

  /** The string reads back as the entries given, key by key, if and only if the input is clean. */
  lemma StringHoldsGivenIff(p: PostgresSpec, passwordEnvVar: string, params: Params, kv: Params, es: seq<Pair>)
    requires Overridden(p, passwordEnvVar, params, kv) && ListsNonEmpty(es, kv)
    ensures Read(Text(es)).Some? && HoldsGiven(Read(Text(es)).value, p, passwordEnvVar, params)
            <==> CleanInput(p, passwordEnvVar, params)
  {
    hide Read, Text, Clean, CleanInput, ListsNonEmpty, Given, NonEmpty;
    RoundTripIffClean(es, kv);
    CleanAlike(p, passwordEnvVar, params, kv);
    NonEmptyHoldsGiven(p, passwordEnvVar, params, kv);
    if Read(Text(es)).Some? && HoldsGiven(Read(Text(es)).value, p, passwordEnvVar, params) {
      forall key ensures Entry(Read(Text(es)).value, key) == Entry(NonEmpty(kv), key) {
        assert Entry(NonEmpty(kv), key) == NonEmptyEntry(Given(p, passwordEnvVar, params, key));
      }
      SameEntries(Read(Text(es)).value, NonEmpty(kv));
    }
  }

  lemma NonEmptyHoldsGiven(p: PostgresSpec, passwordEnvVar: string, params: Params, kv: Params)
    requires Overridden(p, passwordEnvVar, params, kv)
    ensures HoldsGiven(NonEmpty(kv), p, passwordEnvVar, params)
  {
    hide Given;
    forall key: string ensures Entry(NonEmpty(kv), key) == NonEmptyEntry(Given(p, passwordEnvVar, params, key)) {
      assert Entry(kv, key) == Given(p, passwordEnvVar, params, key);
    }
  }

  lemma {:induction false} DecimalIsClean(n: nat)
    ensures CleanValue(Decimal(n))
    decreases n
  {
    if n >= 10 {
      DecimalIsClean(n / 10);
    }
  }

  lemma PasswordIsClean(passwordEnvVar: string)
    ensures CleanValue("$(" + passwordEnvVar + ")") <==> CleanValue(passwordEnvVar)
  {
    var v := "$(" + passwordEnvVar + ")";
    assert v[0] == '$' && v[1] == '(' && v[|v| - 1] == ')';
    assert forall i | 0 <= i < |passwordEnvVar| :: v[i + 2] == passwordEnvVar[i];
    if CleanValue(v) {
      forall i | 0 <= i < |passwordEnvVar| ensures !Special(passwordEnvVar[i]) {
        assert !Special(v[i + 2]);
      }
    } else {
      var i :| 0 <= i < |v| && Special(v[i]);
      assert v[i] == passwordEnvVar[i - 2];
    }
  }

  predicate CleanEntry(e: Option<string>) { e.Some? && e.value != "" ==> CleanValue(e.value) }

  /** The reserved keys are clean themselves, and the values under them if what goes in is. */
  lemma ReservedAlike(p: PostgresSpec, passwordEnvVar: string, params: Params)
    ensures forall key | key in RESERVED :: CleanKey(key)
    ensures (forall key | key in RESERVED :: CleanEntry(Given(p, passwordEnvVar, params, key)))
            <==> && CleanValue(p.host) && CleanValue(p.user) && CleanValue(p.database) && CleanValue(passwordEnvVar)
                 && (p.port <= 0 ==> CleanValue(Value(params, "port"))) && CleanValue(Value(params, "sslmode"))
  {
    PasswordIsClean(passwordEnvVar);
    if p.port > 0 {
      DecimalIsClean(p.port);
    }
    GivenReserved(p, passwordEnvVar, params);
    hide Given;
    assert "host" in RESERVED && "port" in RESERVED && "user" in RESERVED && "password" in RESERVED && "dbname" in RESERVED
           && "sslmode" in RESERVED;
    assert CleanValue("") && CleanValue("disable");
  }

  lemma GivenReserved(p: PostgresSpec, passwordEnvVar: string, params: Params)
    ensures Given(p, passwordEnvVar, params, "host") == Some(p.host)
    ensures Given(p, passwordEnvVar, params, "user") == Some(p.user)
    ensures Given(p, passwordEnvVar, params, "dbname") == Some(p.database)
    ensures Given(p, passwordEnvVar, params, "password") == Some("$(" + passwordEnvVar + ")")
    ensures Given(p, passwordEnvVar, params, "sslmode")
            == if Value(params, "sslmode") == "" then Some("disable") else Entry(params, "sslmode")
    ensures Given(p, passwordEnvVar, params, "port") == if p.port > 0 then Some(Decimal(p.port)) else Entry(params, "port")
    ensures forall key | key !in RESERVED :: Given(p, passwordEnvVar, params, key) == Entry(params, key)
  {
  }

  lemma CleanAlike(p: PostgresSpec, passwordEnvVar: string, params: Params, kv: Params)
    requires Overridden(p, passwordEnvVar, params, kv)
    ensures Clean(kv) <==> CleanInput(p, passwordEnvVar, params)
  {
    ReservedAlike(p, passwordEnvVar, params);
    GivenReserved(p, passwordEnvVar, params);
    hide Given, CleanKey, CleanValue;
    assert forall key: string :: Entry(kv, key) == Given(p, passwordEnvVar, params, key);
    if Clean(kv) {
      forall key | key in RESERVED ensures CleanEntry(Given(p, passwordEnvVar, params, key)) {
        assert Entry(kv, key) == Given(p, passwordEnvVar, params, key);
      }
      forall k | k in params && params[k] != "" && k !in RESERVED ensures CleanKey(k) && CleanValue(params[k]) {
        assert Entry(kv, k) == Entry(params, k);
      }
    }
    if CleanInput(p, passwordEnvVar, params) {
      forall k | k in kv && kv[k] != "" ensures CleanKey(k) && CleanValue(kv[k]) {
        assert Entry(kv, k) == Given(p, passwordEnvVar, params, k);
        if k in RESERVED {
          assert CleanEntry(Given(p, passwordEnvVar, params, k));
        } else {
          assert Entry(kv, k) == Entry(params, k);
        }
      }
    }
  }
}
