/** The names the operator builds with "%s" and "%d", and how they are read back. */
module Naming {
  import opened Trees

  // Decimal numbers.

  predicate IsDigit(c: char) { '0' <= c <= '9' }

  function Digit(n: nat): (c: char)
    requires n < 10
    ensures IsDigit(c)
  {
    "0123456789"[n]
  }

  /** %d of a count. */
  function Decimal(n: nat): (s: string)
    ensures s != [] && forall i | 0 <= i < |s| :: IsDigit(s[i])
  {
    if n < 10 then [Digit(n)] else Decimal(n / 10) + [Digit(n % 10)]
  }

  function DigitValue(c: char): (n: nat)
    requires IsDigit(c)
  {
    c as int - '0' as int
  }

  function DecimalValue(s: string): nat
    requires forall i | 0 <= i < |s| :: IsDigit(s[i])
  {
    if s == [] then 0 else 10 * DecimalValue(s[..|s| - 1]) + DigitValue(s[|s| - 1])
  }

  lemma {:induction false} DecimalRoundTrip(n: nat)
    ensures DecimalValue(Decimal(n)) == n
  {
    assert forall d: nat | d < 10 :: DigitValue(Digit(d)) == d;
    if n >= 10 {
      DecimalRoundTrip(n / 10);
      assert Decimal(n)[..|Decimal(n)| - 1] == Decimal(n / 10);
    }
  }

  // Taking a name apart from its end.

  /** Where the run of digits at the end of s starts. */
  function DigitsFrom(s: string): (i: nat)
    ensures i <= |s|
    ensures forall j | i <= j < |s| :: IsDigit(s[j])
    ensures i > 0 ==> !IsDigit(s[i - 1])
  {
    if s == [] || !IsDigit(s[|s| - 1]) then |s| else DigitsFrom(s[..|s| - 1])
  }

  /** The number behind the last dash of s, and what stands before that dash. */
  function SplitNumber(s: string): Option<(string, nat)> {
    var i := DigitsFrom(s);
    if i == |s| || i == 0 || s[i - 1] != '-' then None
    else Some((s[..i - 1], DecimalValue(s[i..])))
  }

  lemma {:induction false} DigitsStart(prefix: string, digits: string)
    requires forall i | 0 <= i < |digits| :: IsDigit(digits[i])
    ensures DigitsFrom(prefix + "-" + digits) == |prefix| + 1
    decreases |digits|
  {
    var s := prefix + "-" + digits;
    if digits != "" {
      var front := digits[..|digits| - 1];
      assert s[|s| - 1] == digits[|digits| - 1];
      assert s[..|s| - 1] == prefix + "-" + front;
      DigitsStart(prefix, front);
    }
  }

  lemma SplitNumberOf(prefix: string, n: nat)
    ensures SplitNumber(prefix + "-" + Decimal(n)) == Some((prefix, n))
    ensures IsDigit((prefix + "-" + Decimal(n))[|prefix + "-" + Decimal(n)| - 1])
  {
    var s := prefix + "-" + Decimal(n);
    DigitsStart(prefix, Decimal(n));
    assert s[|prefix| + 1..] == Decimal(n);
    assert s[..|prefix|] == prefix;
    assert s[|s| - 1] == Decimal(n)[|Decimal(n)| - 1];
    DecimalRoundTrip(n);
  }

  lemma NoNumber(s: string)
    requires s != [] && !IsDigit(s[|s| - 1])
    ensures SplitNumber(s) == None
  {
  }

  function StripSuffix(s: string, suffix: string): Option<string> {
    if |suffix| <= |s| && s[|s| - |suffix|..] == suffix then Some(s[..|s| - |suffix|]) else None
  }

  lemma StripSuffixOf(prefix: string, suffix: string)
    ensures StripSuffix(prefix + suffix, suffix) == Some(prefix)
  {
    assert (prefix + suffix)[|prefix|..] == suffix;
    assert (prefix + suffix)[..|prefix|] == prefix;
  }

  lemma OtherSuffix(s: string, suffix: string)
    requires s != [] && suffix != [] && s[|s| - 1] != suffix[|suffix| - 1]
    ensures StripSuffix(s, suffix) == None
  {
    if |suffix| <= |s| {
      assert s[|s| - |suffix|..][|suffix| - 1] == s[|s| - 1];
    }
  }

  // The volume claims.

  datatype ClaimId =
    | Telemetry(replica: nat)
    | Shard(shard: nat, replica: nat)
    | Keeper(replica: nat)
    | Prometheus

  function ShardSetName(name: string, shard: nat): string { name + "-clickhouse-shard" + "-" + Decimal(shard) }

  function KeeperSetName(name: string): string { name + "-clickhouse-keeper" }

  function TelemetrySetName(name: string): string { name + "-telemetry" }

  /** Pod i of a StatefulSet, and the claim its "data" template gives that pod. */
  function PodName(set_: string, ordinal: nat): string { set_ + "-" + Decimal(ordinal) }

  function DataClaim(pod: string): string { "data-" + pod }

  function ClaimName(name: string, id: ClaimId): string {
    match id
    case Telemetry(r) => "data-" + (name + "-telemetry" + "-" + Decimal(r))
    case Shard(s, r) => "data-" + (name + "-clickhouse-shard" + "-" + Decimal(s) + "-" + Decimal(r))
    case Keeper(r) => "data-" + (name + "-clickhouse-keeper" + "-" + Decimal(r))
    case Prometheus => "data-" + (name + "-prometheus")
  }

  function StripPrefix(s: string, prefix: string): Option<string> {
    if prefix <= s then Some(s[|prefix|..]) else None
  }

  function WithId(name: Option<string>, id: ClaimId): Option<(string, ClaimId)> {
    if name.None? then None else Some((name.value, id))
  }

  /** Reads a claim name back. */
  function DecodeClaim(s: string): Option<(string, ClaimId)> {
    var body := StripPrefix(s, "data-");
    if body.None? then None
    else match SplitNumber(body.value)
      case None => WithId(StripSuffix(body.value, "-prometheus"), Prometheus)
      case Some((rest, n)) => DecodeNumbered(rest, n)
  }

  function DecodeNumbered(rest: string, n: nat): Option<(string, ClaimId)> {
    if StripSuffix(rest, "-telemetry").Some? then WithId(StripSuffix(rest, "-telemetry"), Telemetry(n))
    else if StripSuffix(rest, "-clickhouse-keeper").Some? then WithId(StripSuffix(rest, "-clickhouse-keeper"), Keeper(n))
    else match SplitNumber(rest)
      case None => None
      case Some((front, shard)) => WithId(StripSuffix(front, "-clickhouse-shard"), Shard(shard, n))
  }

  lemma DecodeBody(body: string)
    ensures StripPrefix("data-" + body, "data-") == Some(body)
  {
    assert ("data-" + body)[5..] == body;
  }

  lemma TelemetryClaimDecodes(name: string, replica: nat)
    ensures DecodeClaim(ClaimName(name, Telemetry(replica))) == Some((name, Telemetry(replica)))
  {
    var rest := name + "-telemetry";
    DecodeBody(rest + "-" + Decimal(replica));
    SplitNumberOf(rest, replica);
    StripSuffixOf(name, "-telemetry");
  }

  lemma KeeperClaimDecodes(name: string, replica: nat)
    ensures DecodeClaim(ClaimName(name, Keeper(replica))) == Some((name, Keeper(replica)))
  {
    var rest := name + "-clickhouse-keeper";
    DecodeBody(rest + "-" + Decimal(replica));
    SplitNumberOf(rest, replica);
    OtherSuffix(rest, "-telemetry");
    StripSuffixOf(name, "-clickhouse-keeper");
  }

  lemma ShardClaimDecodes(name: string, shard: nat, replica: nat)
    ensures DecodeClaim(ClaimName(name, Shard(shard, replica))) == Some((name, Shard(shard, replica)))
  {
    var front := name + "-clickhouse-shard";
    var rest := front + "-" + Decimal(shard);
    DecodeBody(rest + "-" + Decimal(replica));
    SplitNumberOf(rest, replica);
    SplitNumberOf(front, shard);
    OtherSuffix(rest, "-telemetry");
    OtherSuffix(rest, "-clickhouse-keeper");
    StripSuffixOf(name, "-clickhouse-shard");
  }

  lemma PrometheusClaimDecodes(name: string)
    ensures DecodeClaim(ClaimName(name, Prometheus)) == Some((name, Prometheus))
  {
    DecodeBody(name + "-prometheus");
    NoNumber(name + "-prometheus");
    StripSuffixOf(name, "-prometheus");
  }

  /** A claim name determines the resource, the component, the shard and the replica, whatever dashes
      and digits the resource's own name contains. */
  lemma ClaimNamesDecode(name: string, id: ClaimId)
    ensures DecodeClaim(ClaimName(name, id)) == Some((name, id))
  {
    match id
    case Telemetry(r) => TelemetryClaimDecodes(name, r);
    case Shard(s, r) => ShardClaimDecodes(name, s, r);
    case Keeper(r) => KeeperClaimDecodes(name, r);
    case Prometheus => PrometheusClaimDecodes(name);
  }

  lemma ClaimNamesAreInjective(name: string, id: ClaimId, name': string, id': ClaimId)
    requires ClaimName(name, id) == ClaimName(name', id')
    ensures name == name' && id == id'
  {
    ClaimNamesDecode(name, id);
    ClaimNamesDecode(name', id');
  }
}
