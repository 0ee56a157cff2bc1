/** Choosing image versions: precedence as in section 11 of Semantic Versioning 2.0.0, and the tag that
    comes out on top. */
module Versions {
  import opened Trees
  import opened Sorting

  datatype Identifier = Numeric(n: nat) | Word(s: string)

  datatype Version = Version(major: nat, minor: nat, patch: nat, prerelease: seq<Identifier>, metadata: string)

  /** Numbers by value, words in ASCII order, numbers below words. */
  predicate IdentifierBelow(a: Identifier, b: Identifier) {
    match (a, b)
    case (Numeric(m), Numeric(n)) => m < n
    case (Numeric(_), Word(_)) => true
    case (Word(_), Numeric(_)) => false
    case (Word(s), Word(t)) => Less(s, t)
  }

  /** Identifier by identifier; when one list is the beginning of the other, the longer is above. */
  predicate IdentifiersBelow(a: seq<Identifier>, b: seq<Identifier>) {
    b != [] && (a == [] || IdentifierBelow(a[0], b[0]) || (a[0] == b[0] && IdentifiersBelow(a[1..], b[1..])))
  }

  /** A prerelease is below its release. */
  predicate PrereleaseBelow(a: seq<Identifier>, b: seq<Identifier>) {
    a != [] && (b == [] || IdentifiersBelow(a, b))
  }

  /** Strict precedence; build metadata plays no part. */
  predicate Below(a: Version, b: Version) {
    || a.major < b.major
    || (a.major == b.major && a.minor < b.minor)
    || (a.major == b.major && a.minor == b.minor && a.patch < b.patch)
    || (a.major == b.major && a.minor == b.minor && a.patch == b.patch && PrereleaseBelow(a.prerelease, b.prerelease))
  }

  predicate AtMost(a: Version, b: Version) { !Below(b, a) }

  // A total preorder.

  lemma {:induction false} IdentifiersTransitive(a: seq<Identifier>, b: seq<Identifier>, c: seq<Identifier>)
    requires IdentifiersBelow(a, b) && IdentifiersBelow(b, c)
    ensures IdentifiersBelow(a, c)
    decreases |a|
  {
    if a != [] {
      IdentifierTransitive(a[0], b[0], c[0]);
      if a[0] == b[0] && b[0] == c[0] && !IdentifierBelow(a[0], b[0]) && !IdentifierBelow(b[0], c[0]) {
        IdentifiersTransitive(a[1..], b[1..], c[1..]);
      }
    }
  }

  lemma IdentifierTransitive(a: Identifier, b: Identifier, c: Identifier)
    ensures IdentifierBelow(a, b) && IdentifierBelow(b, c) ==> IdentifierBelow(a, c)
  {
    if a.Word? && b.Word? && c.Word? && Less(a.s, b.s) && Less(b.s, c.s) {
      LessIsTransitive(a.s, b.s, c.s);
    }
  }

  lemma IdentifierTrichotomy(a: Identifier, b: Identifier)
    ensures IdentifierBelow(a, b) || IdentifierBelow(b, a) || a == b
    ensures IdentifierBelow(a, b) ==> !IdentifierBelow(b, a) && a != b
  {
    if a.Word? && b.Word? {
      LessIsTotal(a.s, b.s);
      if Less(a.s, b.s) {
        LessIsAsymmetric(a.s, b.s);
      }
    }
  }

  lemma {:induction false} IdentifiersTrichotomy(a: seq<Identifier>, b: seq<Identifier>)
    ensures IdentifiersBelow(a, b) || IdentifiersBelow(b, a) || a == b
    ensures IdentifiersBelow(a, b) ==> !IdentifiersBelow(b, a) && a != b
    decreases |a|
  {
    if a != [] && b != [] {
      IdentifierTrichotomy(a[0], b[0]);
      IdentifierTrichotomy(b[0], a[0]);
      if a[0] == b[0] {
        IdentifiersTrichotomy(a[1..], b[1..]);
        assert a == [a[0]] + a[1..] && b == [b[0]] + b[1..];
      }
    }
  }

  predicate SameRank(a: Version, b: Version) { a.(metadata := "") == b.(metadata := "") }

  /** Of two versions exactly one is below the other, or they differ in build metadata alone. */
  lemma PrecedenceTrichotomy(a: Version, b: Version)
    ensures Below(a, b) || Below(b, a) || SameRank(a, b)
    ensures Below(a, b) ==> !Below(b, a) && !SameRank(a, b)
  {
    IdentifiersTrichotomy(a.prerelease, b.prerelease);
    IdentifiersTrichotomy(b.prerelease, a.prerelease);
  }

  lemma BelowIsTransitive(a: Version, b: Version, c: Version)
    requires Below(a, b) && Below(b, c)
    ensures Below(a, c)
  {
    if IdentifiersBelow(a.prerelease, b.prerelease) && IdentifiersBelow(b.prerelease, c.prerelease) {
      IdentifiersTransitive(a.prerelease, b.prerelease, c.prerelease);
    }
  }

  /** Precedence is a total preorder: any two versions compare, and comparisons chain. */
  lemma PrecedenceIsTotalPreorder(a: Version, b: Version, c: Version)
    ensures AtMost(a, a) && (AtMost(a, b) || AtMost(b, a))
    ensures AtMost(a, b) && AtMost(b, c) ==> AtMost(a, c)
    ensures AtMost(a, b) && AtMost(b, a) <==> SameRank(a, b)
  {
    PrecedenceTrichotomy(a, a);
    PrecedenceTrichotomy(a, b);
    PrecedenceTrichotomy(b, a);
    PrecedenceTrichotomy(b, c);
    PrecedenceTrichotomy(a, c);
    if Below(a, b) && Below(b, c) {
      BelowIsTransitive(a, b, c);
      PrecedenceTrichotomy(c, a);
    }
  }

  // The rules of the standard.

  /** Two lists of identifiers first differ at i. */
  predicate FirstDifference(a: seq<Identifier>, b: seq<Identifier>, i: nat) {
    i < |a| && i < |b| && a[..i] == b[..i] && a[i] != b[i]
  }

  lemma {:induction false} FirstDifferenceDecides(a: seq<Identifier>, b: seq<Identifier>, i: nat)
    requires FirstDifference(a, b, i)
    ensures IdentifiersBelow(a, b) <==> IdentifierBelow(a[i], b[i])
    decreases i
  {
    if i > 0 {
      assert a[..i][0] == a[0] && b[..i][0] == b[0];
      assert a[1..][..i - 1] == a[..i][1..] && b[1..][..i - 1] == b[..i][1..];
      FirstDifferenceDecides(a[1..], b[1..], i - 1);
      IdentifierTrichotomy(a[0], b[0]);
    }
  }

  lemma {:induction false} LongerIsAbove(a: seq<Identifier>, b: seq<Identifier>)
    requires |a| < |b| && a == b[..|a|]
    ensures IdentifiersBelow(a, b)
    decreases |a|
  {
    if a != [] {
      assert a[0] == b[0] && a[1..] == b[1..][..|a| - 1];
      LongerIsAbove(a[1..], b[1..]);
    }
  }

  lemma {:induction false} Compare(a: seq<Identifier>, b: seq<Identifier>) returns (i: nat)
    ensures i <= |a| && i <= |b| && a[..i] == b[..i]
    ensures i == |a| || i == |b| || a[i] != b[i]
    decreases |a|
  {
    if a == [] || b == [] || a[0] != b[0] {
      i := 0;
    } else {
      var rest := Compare(a[1..], b[1..]);
      i := rest + 1;
      assert a[..i] == [a[0]] + a[1..][..rest] && b[..i] == [b[0]] + b[1..][..rest];
    }
  }

  /** Sections 11.4.1 to 11.4.3: numbers numerically, words in ASCII order, a number below every word. */
  predicate StandsBelow(a: Identifier, b: Identifier) {
    if a.Numeric? && b.Numeric? then a.n < b.n
    else if a.Word? && b.Word? then IsBelow(a.s, b.s)
    else a.Numeric?
  }

  lemma IdentifierBelowIff(a: Identifier, b: Identifier)
    ensures IdentifierBelow(a, b) <==> StandsBelow(a, b)
  {
    if a.Word? && b.Word? {
      LessIff(a.s, b.s);
    }
  }

  /** Section 11.4.4: the first difference decides, and without one the longer list is above. */
  predicate RanksBelow(a: seq<Identifier>, b: seq<Identifier>) {
    (|a| < |b| && a == b[..|a|]) || exists i | 0 <= i < |a| :: FirstDifference(a, b, i) && StandsBelow(a[i], b[i])
  }

  lemma IdentifiersBelowIff(a: seq<Identifier>, b: seq<Identifier>)
    ensures IdentifiersBelow(a, b) <==> RanksBelow(a, b)
  {
    if RanksBelow(a, b) {
      if |a| < |b| && a == b[..|a|] {
        LongerIsAbove(a, b);
      } else {
        var i: nat :| i < |a| && FirstDifference(a, b, i) && StandsBelow(a[i], b[i]);
        FirstDifferenceDecides(a, b, i);
        IdentifierBelowIff(a[i], b[i]);
      }
    }
    if IdentifiersBelow(a, b) {
      var i := Compare(a, b);
      IdentifiersTrichotomy(a, b);
      if i < |a| && i < |b| {
        FirstDifferenceDecides(a, b, i);
        IdentifierBelowIff(a[i], b[i]);
      } else {
        assert a[..|a|] == a && b[..|b|] == b;
        if |b| < |a| {
          LongerIsAbove(b, a);
        }
      }
    }
  }

  function Core(v: Version): seq<nat> { [v.major, v.minor, v.patch] }

  /** Section 11: the first different number decides; with all three the same, a prerelease is below its
      release, and two prereleases compare by their identifiers. */
  lemma PrecedenceIsTheStandards(a: Version, b: Version)
    ensures Below(a, b)
            <==> (exists i | 0 <= i < 3 :: Core(a)[..i] == Core(b)[..i] && Core(a)[i] < Core(b)[i])
                 || (Core(a) == Core(b) && a.prerelease != [] && (b.prerelease == [] || RanksBelow(a.prerelease, b.prerelease)))
  {
    hide RanksBelow, IdentifiersBelow;
    IdentifiersBelowIff(a.prerelease, b.prerelease);
    var x, y := Core(a), Core(b);
    assert x[0] == a.major && x[1] == a.minor && x[2] == a.patch;
    assert y[0] == b.major && y[1] == b.minor && y[2] == b.patch;
    assert x[..0] == y[..0];
    assert x[..1] == y[..1] <==> x[0] == y[0];
    assert x[..2] == y[..2] <==> x[0] == y[0] && x[1] == y[1];
    assert x == y <==> x[0] == y[0] && x[1] == y[1] && x[2] == y[2];
  }

  // Sorting the tags.

  datatype Tagged = Tagged(v: Version, tag: string)

  /** LessThan of the parsed versions. */
  predicate LessThan(a: Tagged, b: Tagged) { Below(a.v, b.v) }

  lemma LessThanIsWeakOrder()
    ensures IsWeakOrder(LessThan)
  {
    forall a: Tagged, b: Tagged | LessThan(a, b) ensures !LessThan(b, a) {
      PrecedenceTrichotomy(a.v, b.v);
    }
    forall a: Tagged, b: Tagged, c: Tagged | !LessThan(b, a) && !LessThan(c, b) ensures !LessThan(c, a) {
      PrecedenceIsTotalPreorder(a.v, b.v, c.v);
    }
  }

  // The operator's choice.

  type Parser = string -> Option<Version>

  predicate Parses(parse: Parser, tag: string) { parse(tag).Some? }

  /** A tag that parses and that no other parsing tag outranks. */
  predicate IsMaximum(parse: Parser, tags: seq<string>, tag: string) {
    tag in tags && Parses(parse, tag)
    && forall t | t in tags && Parses(parse, t) :: AtMost(parse(t).value, parse(tag).value)
  }

  /** fetchAppVersion; the tags are None when listing them failed. */
  method FetchAppVersion(tags: Option<seq<string>>, parse: Parser) returns (tag: Option<string>)
    ensures tag.None? <==> tags.None? || forall t | t in tags.value :: !Parses(parse, t)
    ensures tag.Some? ==> IsMaximum(parse, tags.value, tag.value)
  {
    if tags.None? {
      return None;
    }
    var items: seq<Tagged> := [];
    for i := 0 to |tags.value|
      invariant forall x | x in items :: x.tag in tags.value && parse(x.tag) == Some(x.v)
      invariant forall k | 0 <= k < i && Parses(parse, tags.value[k]) ::
                  Tagged(parse(tags.value[k]).value, tags.value[k]) in items
    {
      var v := parse(tags.value[i]);
      if v.Some? {
        items := items + [Tagged(v.value, tags.value[i])];
      }
    }
    if |items| == 0 {
      return None;
    }
    var sorted := Sort(items, LessThan);
    LessThanIsWeakOrder();
    SortOrders(items, LessThan);
    var top := sorted[|sorted| - 1];
    assert |multiset(sorted)| == |sorted| && |multiset(items)| == |items|;
    assert top in multiset(sorted);
    forall t | t in tags.value && Parses(parse, t) ensures AtMost(parse(t).value, top.v) {
      assert Tagged(parse(t).value, t) in multiset(items);
      var j :| 0 <= j < |sorted| && sorted[j] == Tagged(parse(t).value, t);
      PrecedenceTrichotomy(top.v, top.v);
    }
    tag := Some(top.tag);
  }

  datatype App = Telemetry | NodeAgent | ClusterAgent | Clickhouse | ClickhouseKeeper | Prometheus

  function Repository(app: App): string {
    match app
    case Telemetry => "telemetry"
    case NodeAgent => "telemetry-node-agent"
    case ClusterAgent => "telemetry-cluster-agent"
    case Clickhouse => "clickhouse"
    case ClickhouseKeeper => "clickhouse-keeper"
    case Prometheus => "prometheus"
  }

  const CLICKHOUSE_IMAGE: string := "clickhouse:25.11.2-ubi9-0"
  const PROMETHEUS_IMAGE: string := "prometheus:2.55.1-ubi9-0"

  datatype ImageSpec = ImageSpec(name: string, policy: string, pullSecrets: seq<string>)

  /** The image fields of the resource. */
  datatype OwnImages = OwnImages(
    telemetry: ImageSpec, nodeAgent: ImageSpec, clusterAgent: ImageSpec,
    clickhouse: ImageSpec, keeper: ImageSpec, prometheus: ImageSpec)

  function OwnImage(own: OwnImages, app: App): ImageSpec {
    match app
    case Telemetry => own.telemetry
    case NodeAgent => own.nodeAgent
    case ClusterAgent => own.clusterAgent
    case Clickhouse => own.clickhouse
    case ClickhouseKeeper => own.keeper
    case Prometheus => own.prometheus
  }

  predicate IsPinned(app: App) { app.Clickhouse? || app.ClickhouseKeeper? || app.Prometheus? }

  function Image(prefix: string, name: string): (r: string)
    ensures r != ""
  {
    prefix + "/" + name
  }

  /** The version of an unpinned app: a maximum, or "latest" when there is none or it has no name. */
  ghost predicate IsChoice(tags: Option<seq<string>>, parse: Parser, v: string) {
    if tags.None? || forall t | t in tags.value :: !Parses(parse, t) then v == "latest"
    else IsMaximum(parse, tags.value, v) || (v == "latest" && IsMaximum(parse, tags.value, ""))
  }

  /** Some version of the repository: a maximum of its tags, or "latest". */
  ghost predicate IsVersionOf(prefix: string, repository: string, image: string, tags: Option<seq<string>>, parse: Parser) {
    exists v: string :: image == prefix + "/" + (repository + ":" + v) && IsChoice(tags, parse, v)
  }

  /** Pinned images, and for the others a version of the app's own repository. */
  ghost predicate IsImage(prefix: string, app: App, image: string, tags: Option<seq<string>>, parse: Parser) {
    match app
    case Telemetry => IsVersionOf(prefix, "telemetry", image, tags, parse)
    case NodeAgent => IsVersionOf(prefix, "telemetry-node-agent", image, tags, parse)
    case ClusterAgent => IsVersionOf(prefix, "telemetry-cluster-agent", image, tags, parse)
    case Clickhouse => image == prefix + "/" + "clickhouse:25.11.2-ubi9-0"
    case ClickhouseKeeper => image == prefix + "/" + "clickhouse:25.11.2-ubi9-0"
    case Prometheus => image == prefix + "/" + "prometheus:2.55.1-ubi9-0"
  }

  method FetchUnpinned(tags: App -> Option<seq<string>>, parse: Parser) returns (fetched: map<App, string>)
    ensures forall app: App :: app in fetched <==> !IsPinned(app)
    ensures forall app | app in fetched :: IsChoice(tags(app), parse, fetched[app])
  {
    var apps := [Telemetry, NodeAgent, ClusterAgent];
    fetched := map[];
    for i := 0 to |apps|
      invariant forall app: App :: app in fetched <==> app in apps[..i]
      invariant forall app | app in fetched :: IsChoice(tags(app), parse, fetched[app])
    {
      var v := FetchAppVersion(tags(apps[i]), parse);
      fetched := fetched[apps[i] := if v.None? || v.value == "" then "latest" else v.value];
      assert apps[..i + 1] == apps[..i] + [apps[i]];
    }
    assert apps[..|apps|] == apps;
  }

  /** The images of all six apps, in every state the operator can be in. */
  class Images {
    var versions: map<App, string>
    const prefix: string
    const pullSecret: string

    /** NewTelemetryReconciler fetches once before anything is reconciled. */
    constructor (prefix: string, pullSecret: string, tags: App -> Option<seq<string>>, parse: Parser)
      ensures this.prefix == prefix && this.pullSecret == pullSecret && Valid() && Chosen(tags, parse)
    {
      this.prefix := prefix;
      this.pullSecret := pullSecret;
      versions := map[];
      new;
      FetchAppVersions(tags, parse);
    }

    predicate Valid()
      reads this
    {
      forall app: App :: app in versions && versions[app] != ""
    }

    ghost predicate Chosen(tags: App -> Option<seq<string>>, parse: Parser)
      reads this
    {
      forall app: App :: app in versions && IsImage(prefix, app, versions[app], tags(app), parse)
    }

    method FetchAppVersions(tags: App -> Option<seq<string>>, parse: Parser)
      modifies this`versions
      ensures Valid() && Chosen(tags, parse)
    {
      var fetched := FetchUnpinned(tags, parse);
      var images := map app | app in fetched :: Image(prefix, Repository(app) + ":" + fetched[app]);
      versions := versions + images;
      versions := versions[Clickhouse := Image(prefix, CLICKHOUSE_IMAGE)];
      versions := versions[ClickhouseKeeper := Image(prefix, CLICKHOUSE_IMAGE)];
      versions := versions[Prometheus := Image(prefix, PROMETHEUS_IMAGE)];
      ghost var all := versions;
      forall app: App ensures app in all && IsImage(prefix, app, all[app], tags(app), parse) {
        if !IsPinned(app) {
          assert app in fetched && all[app] == Image(prefix, Repository(app) + ":" + fetched[app]);
        }
      }
    }

    /** getAppImage: the resource's own choice for the app if it names an image; else the fetched one,
        with the operator's pull secret, and whatever else the resource says. */
    method GetAppImage(own: OwnImages, app: App) returns (image: ImageSpec)
      requires Valid()
      ensures image.name != ""
      ensures app.Telemetry? && own.telemetry.name != "" ==> image == own.telemetry
      ensures app.NodeAgent? && own.nodeAgent.name != "" ==> image == own.nodeAgent
      ensures app.ClusterAgent? && own.clusterAgent.name != "" ==> image == own.clusterAgent
      ensures app.Clickhouse? && own.clickhouse.name != "" ==> image == own.clickhouse
      ensures app.ClickhouseKeeper? && own.keeper.name != "" ==> image == own.keeper
      ensures app.Prometheus? && own.prometheus.name != "" ==> image == own.prometheus
      ensures var asked := OwnImage(own, app);
              if asked.name != "" then image == asked
              else && image.name == versions[app] && image.policy == asked.policy
                   && image.pullSecrets == if pullSecret != "" then [pullSecret] else asked.pullSecrets
    {
      match app {
        case Telemetry => image := own.telemetry;
        case NodeAgent => image := own.nodeAgent;
        case ClusterAgent => image := own.clusterAgent;
        case Clickhouse => image := own.clickhouse;
        case ClickhouseKeeper => image := own.keeper;
        case Prometheus => image := own.prometheus;
      }
      if image.name != "" {
        return;
      }
      image := image.(name := versions[app]);
      if pullSecret != "" {
        image := image.(pullSecrets := [pullSecret]);
      }
    }
  }
}
