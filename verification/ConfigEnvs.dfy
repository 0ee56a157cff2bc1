/** Environment variables that carry secrets into the rendered configuration. */
module ConfigEnvs {
  import opened Trees
  import opened Sorting

  datatype Selector = Selector(name: string, key: string)

  datatype EnvVar = EnvVar(name: string, selector: Selector)

  type Bindings = map<string, Selector>

  /** CRC-32 of a byte string. */
  type Checksum = string -> nat

  function HexDigit(n: nat): (c: char)
    requires n < 16
  {
    "0123456789ABCDEF"[n]
  }

  /** %X */
  function Hex(n: nat): (s: string)
    ensures s != []
  {
    if n < 16 then [HexDigit(n)] else Hex(n / 16) + [HexDigit(n % 16)]
  }

  function HexValueOf(c: char): nat {
    if '0' <= c <= '9' then c as int - '0' as int
    else if 'A' <= c <= 'F' then c as int - 'A' as int + 10
    else 0
  }

  function HexValue(s: string): nat {
    if s == [] then 0 else 16 * HexValue(s[..|s| - 1]) + HexValueOf(s[|s| - 1])
  }

  lemma HexDigitReads(i: nat)
    requires i < 16
    ensures HexValueOf(HexDigit(i)) == i && ('0' <= HexDigit(i) <= '9' || 'A' <= HexDigit(i) <= 'F')
  {
  }

  lemma {:induction false} HexRoundTrip(n: nat)
    ensures HexValue(Hex(n)) == n
    ensures forall i | 0 <= i < |Hex(n)| :: '0' <= Hex(n)[i] <= '9' || 'A' <= Hex(n)[i] <= 'F'
  {
    hide HexDigit, HexValueOf;
    HexDigitReads(n % 16);
    if n < 16 {
      assert HexValue([HexDigit(n)]) == 16 * HexValue([]) + HexValueOf(HexDigit(n));
    } else {
      HexRoundTrip(n / 16);
      assert Hex(n)[..|Hex(n)| - 1] == Hex(n / 16);
    }
  }

  function Identity(selector: Selector): string { selector.name + "/" + selector.key }

  function EnvName(crc: Checksum, selector: Selector): string {
    "TELEMETRY_CONFIG_SECRET_" + Hex(crc(Identity(selector)))
  }

  function Placeholder(crc: Checksum, selector: Selector): (s: string)
    ensures s != ""
  {
    "${" + EnvName(crc, selector) + "}"
  }

  predicate VariableChar(c: char) { 'A' <= c <= 'Z' || '0' <= c <= '9' || c == '_' }

  /** Where a string that is one substitution, ${NAME}, gets its text from. */
  function VariableOf(s: string): Option<string> {
    if |s| > 3 && s[..2] == "${" && s[|s| - 1] == '}' && forall i | 2 <= i < |s| - 1 :: VariableChar(s[i])
    then Some(s[2..|s| - 1]) else None
  }

  /** A placeholder reads as the variable it is for, whose name ends in the checksum. */
  lemma PlaceholderReads(crc: Checksum, selector: Selector)
    ensures VariableOf(Placeholder(crc, selector)) == Some(EnvName(crc, selector))
    ensures var name := EnvName(crc, selector);
            && name[..24] == "TELEMETRY_CONFIG_SECRET_"
            && HexValue(name[24..]) == crc(selector.name + "/" + selector.key)
  {
    var prefix, hex := "TELEMETRY_CONFIG_SECRET_", Hex(crc(Identity(selector)));
    HexRoundTrip(crc(Identity(selector)));
    hide HexValueOf, HexDigit;
    PrefixIsVariable();
    var s, name := Placeholder(crc, selector), EnvName(crc, selector);
    assert name[24..] == hex && name[..24] == prefix;
    assert s[2..|s| - 1] == name;
    forall i | 2 <= i < |s| - 1 ensures VariableChar(s[i]) {
      assert s[i] == name[i - 2];
      assert i - 2 >= 24 ==> name[i - 2] == hex[i - 2 - 24];
      assert i - 2 < 24 ==> name[i - 2] == prefix[i - 2];
    }
  }

  lemma PrefixIsVariable()
    ensures forall i | 0 <= i < 24 :: VariableChar("TELEMETRY_CONFIG_SECRET_"[i])
  {
  }

  /** What a container with these variables makes of a value: a substitution, or the value itself. */
  function Substituted(bindings: Bindings, secrets: map<string, map<string, string>>, value: string): string {
    match VariableOf(value)
    case Some(name) =>
      if name in bindings && bindings[name].name in secrets && bindings[name].key in secrets[bindings[name].name]
      then secrets[bindings[name].name][bindings[name].key] else ""
    case None => value
  }

  /** Every name is bound to a selector it was made from. */
  predicate Consistent(crc: Checksum, bindings: Bindings) {
    forall n | n in bindings :: EnvName(crc, bindings[n]) == n
  }

  predicate NoSlash(s: string) { '/' !in s }

  lemma IdentityDecodes(a: Selector, b: Selector)
    requires NoSlash(a.name) && NoSlash(b.name) && Identity(a) == Identity(b)
    ensures a == b
  {
    var (s, t) := (Identity(a), Identity(b));
    assert s[|a.name|] == '/' && t[|b.name|] == '/';
    assert forall i | 0 <= i < |a.name| :: s[i] == a.name[i] && s[i] != '/';
    assert forall i | 0 <= i < |b.name| :: t[i] == b.name[i] && t[i] != '/';
    assert |a.name| == |b.name|;
    assert s[..|a.name|] == a.name && t[..|b.name|] == b.name;
    assert s[|a.name| + 1..] == a.key && t[|b.name| + 1..] == b.key;
  }

  /** Equal variables come from equal checksums. */
  lemma SameNameSameChecksum(crc: Checksum, a: Selector, b: Selector)
    ensures EnvName(crc, a) == EnvName(crc, b) <==> crc(Identity(a)) == crc(Identity(b))
  {
    var prefix := "TELEMETRY_CONFIG_SECRET_";
    assert EnvName(crc, a)[|prefix|..] == Hex(crc(Identity(a)));
    assert EnvName(crc, b)[|prefix|..] == Hex(crc(Identity(b)));
    if Hex(crc(Identity(a))) == Hex(crc(Identity(b))) {
      HexRoundTrip(crc(Identity(a)));
      HexRoundTrip(crc(Identity(b)));
    }
  }

  /** No two of these references have the same checksum. */
  predicate TellsApart(crc: Checksum, refs: set<Selector>) {
    forall a, b | a in refs && b in refs && crc(Identity(a)) == crc(Identity(b)) :: a == b
  }

  /** The checksum has no collision among the texts of these references. */
  predicate Separates(crc: Checksum, refs: set<Selector>) {
    forall a, b | a in refs && b in refs && crc(Identity(a)) == crc(Identity(b)) :: Identity(a) == Identity(b)
  }

  predicate SlashFree(refs: set<Selector>) {
    forall a | a in refs :: NoSlash(a.name)
  }

  /** Free of slashes, references are told apart by any checksum that has no collision among them. */
  lemma SlashFreeToldApart(crc: Checksum, refs: set<Selector>)
    requires Separates(crc, refs) && SlashFree(refs)
    ensures TellsApart(crc, refs)
  {
    forall a, b | a in refs && b in refs && crc(Identity(a)) == crc(Identity(b)) ensures a == b {
      IdentityDecodes(a, b);
    }
  }

  /** Told apart from all others that may have been bound, a reference finds itself. */
  lemma BoundToOwnSelector(crc: Checksum, bindings: Bindings, used: set<Selector>, selector: Selector)
    requires Consistent(crc, bindings) && bindings.Values <= used && selector in used
    requires TellsApart(crc, used) && EnvName(crc, selector) in bindings
    ensures bindings[EnvName(crc, selector)] == selector
  {
    var bound := bindings[EnvName(crc, selector)];
    assert bound in bindings.Values;
    SameNameSameChecksum(crc, bound, selector);
  }

  /** Each of these references finds itself behind its own variable. */
  predicate BoundToThemselves(crc: Checksum, bindings: Bindings, refs: set<Selector>) {
    forall s | s in refs :: EnvName(crc, s) in bindings && bindings[EnvName(crc, s)] == s
  }

  /** Bindings made from exactly these references. */
  predicate MadeFrom(crc: Checksum, bindings: Bindings, refs: set<Selector>) {
    && Consistent(crc, bindings)
    && bindings.Values <= refs
    && (forall s | s in refs :: EnvName(crc, s) in bindings)
  }

  lemma OwnBindingIff(crc: Checksum, bindings: Bindings, refs: set<Selector>)
    requires MadeFrom(crc, bindings, refs)
    ensures BoundToThemselves(crc, bindings, refs) <==> TellsApart(crc, refs)
  {
    hide EnvName;
    if TellsApart(crc, refs) {
      forall s | s in refs ensures bindings[EnvName(crc, s)] == s {
        BoundToOwnSelector(crc, bindings, refs, s);
      }
    } else {
      var a, b :| a in refs && b in refs && crc(Identity(a)) == crc(Identity(b)) && a != b;
      SameNameSameChecksum(crc, a, b);
      assert EnvName(crc, a) in bindings;
    }
  }

  /** With a slash in a secret's name no checksum helps: these two share one variable. */
  lemma SlashesCollide(crc: Checksum)
    ensures var (a, b) := (Selector("a/b", "c"), Selector("a", "b/c"));
            a != b && EnvName(crc, a) == EnvName(crc, b)
  {
    assert Identity(Selector("a/b", "c")) == Identity(Selector("a", "b/c"));
  }

  predicate NameBelow(a: EnvVar, b: EnvVar) { Less(a.name, b.name) }

  lemma NamesAreOrdered()
    ensures IsWeakOrder(NameBelow)
  {
    LessIsWeakOrder();
  }

  ghost predicate Lists(envs: seq<EnvVar>, bindings: Bindings) {
    forall e: EnvVar :: e in envs <==> e.name in bindings && bindings[e.name] == e.selector
  }

  class Envs {
    var bindings: Bindings

    constructor ()
      ensures bindings == map[]
    {
      bindings := map[];
    }

    method Add(crc: Checksum, selector: Selector) returns (placeholder: string)
      modifies this
      ensures bindings == old(bindings)[EnvName(crc, selector) := selector]
      ensures placeholder == Placeholder(crc, selector)
      ensures old(Consistent(crc, bindings)) ==> Consistent(crc, bindings)
    {
      var name := EnvName(crc, selector);
      bindings := bindings[name := selector];
      placeholder := "${" + name + "}";
    }

    /** The variables of the container: each binding once, in strictly increasing order of names. The
        map is read in whatever order it comes. */
    method List() returns (envs: seq<EnvVar>)
      ensures Lists(envs, bindings)
      ensures StrictlyOrdered(envs, NameBelow)
    {
      envs := [];
      var todo := bindings.Keys;
      while todo != {}
        invariant todo <= bindings.Keys
        invariant forall e: EnvVar :: e in envs <==> e.name in bindings && e.name !in todo && bindings[e.name] == e.selector
        invariant forall i, j | 0 <= i < j < |envs| :: envs[i].name != envs[j].name
        decreases |todo|
      {
        var name :| name in todo;
        ghost var before := envs;
        envs := envs + [EnvVar(name, bindings[name])];
        todo := todo - {name};
        assert forall e: EnvVar :: e in envs <==> e in before || e == EnvVar(name, bindings[name]);
        assert forall i | 0 <= i < |before| :: before[i] in before && envs[i] == before[i];
      }
      forall i, j | 0 <= i < j < |envs| ensures NameBelow(envs[i], envs[j]) || NameBelow(envs[j], envs[i]) {
        LessIsTotal(envs[i].name, envs[j].name);
      }
      NamesAreOrdered();
      SortSorts(envs, NameBelow);
      ghost var unsorted := envs;
      envs := Sort(envs, NameBelow);
      MemberOfMultiset(envs, unsorted);
      MemberOfMultiset(unsorted, envs);
    }
  }

  /** ... so the list does not depend on the map's order: any two such listings are equal. */
  lemma ListIsDetermined(a: seq<EnvVar>, b: seq<EnvVar>, bindings: Bindings)
    requires Lists(a, bindings) && StrictlyOrdered(a, NameBelow)
    requires Lists(b, bindings) && StrictlyOrdered(b, NameBelow)
    ensures a == b
  {
    forall e: EnvVar ensures e in a <==> e in b {
    }
    NamesAreOrdered();
    SortedListingUnique(a, b, NameBelow);
  }
}
