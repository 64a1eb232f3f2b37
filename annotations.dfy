/**
 * The annotation keys the ingress source reads and their typed decoding:
 * target override, TTL, alias flag, hostname list, hostname-source mode,
 * controller ownership and the legacy ingress-class annotation.
 */
module Annotations {
  import opened Wrappers
  import opened Strings

  const HostnameKey: string := "external-dns.alpha.kubernetes.io/hostname"
  const TargetKey: string := "external-dns.alpha.kubernetes.io/target"
  const TtlKey: string := "external-dns.alpha.kubernetes.io/ttl"
  const AliasKey: string := "external-dns.alpha.kubernetes.io/alias"
  const ControllerKey: string := "external-dns.alpha.kubernetes.io/controller"
  const HostnameSourceKey: string := "external-dns.alpha.kubernetes.io/ingress-hostname-source"
  const IngressClassKey: string := "kubernetes.io/ingress.class"

  /** The controller value that marks a resource as ours. */
  const ControllerValue: string := "dns-controller"

  /** Which host sources an ingress asks to be used. */
  datatype HostnameSource = AllSources | DefinedHostsOnly | AnnotationOnly

  /** The hosts of the hostname annotation: comma-separated, trimmed, empty entries dropped. */
  function Hostnames(annotations: map<string, string>): (hosts: seq<string>)
    ensures HostnameKey !in annotations ==> hosts == []
    ensures forall h :: h in hosts ==> h != "" && ',' !in h
  {
    if HostnameKey in annotations then SplitList(annotations[HostnameKey], ',') else []
  }

  /**
   * The target override: None when the annotation is absent; otherwise its
   * comma-separated entries, trimmed, empty entries dropped. A present
   * annotation with no entries overrides the load balancer with nothing.
   */
  function Override(annotations: map<string, string>): (targets: Option<seq<string>>)
    ensures targets.Some? <==> TargetKey in annotations
    ensures targets.Some? ==> forall t :: t in targets.value ==> t != "" && ',' !in t
  {
    if TargetKey in annotations then Some(SplitList(annotations[TargetKey], ',')) else None
  }

  /**
   * A TTL value: whole seconds written as plain digits ("6") or as a duration
   * in seconds ("10s"); zero, any other form, and no annotation give no TTL.
   */
  function ParseTtl(value: string): (ttl: Option<nat>)
    ensures ttl.Some? ==> ttl.value >= 1
    ensures (|value| == 0 || !AllDigits(value[..|value| - 1])) ==> ttl == None
  {
    var digits := if |value| > 0 && value[|value| - 1] == 's' then value[..|value| - 1] else value;
    if |digits| > 0 && AllDigits(digits) && DecimalValue(digits) >= 1 then Some(DecimalValue(digits)) else None
  }

  /**
   * A TTL is read only from positive digits, bare or followed by `s`, and is
   * their value; any such value is read. Every other form ("6x", "10m", "s",
   * "0") gives no TTL.
   */
  lemma ParseTtlMeaning(value: string)
    ensures ParseTtl(value).Some? ==>
              exists d :: (value == d || value == d + "s") && |d| > 0 && AllDigits(d) && ParseTtl(value).value == DecimalValue(d)
    ensures forall d :: (value == d || value == d + "s") && |d| > 0 && AllDigits(d) && DecimalValue(d) >= 1 ==>
              ParseTtl(value) == Some(DecimalValue(d))
  {
    if ParseTtl(value).Some? {
      var digits := if |value| > 0 && value[|value| - 1] == 's' then value[..|value| - 1] else value;
      assert value == digits || value == digits + "s";
    }
    forall d | (value == d || value == d + "s") && |d| > 0 && AllDigits(d) && DecimalValue(d) >= 1
      ensures ParseTtl(value) == Some(DecimalValue(d))
    {
      ParseTtlOfDigits(d);
    }
  }

  /** Positive digits, written bare or followed by `s`, read as their value. */
  lemma ParseTtlOfDigits(d: string)
    requires |d| > 0 && AllDigits(d) && DecimalValue(d) >= 1
    ensures ParseTtl(d) == Some(DecimalValue(d))
    ensures ParseTtl(d + "s") == Some(DecimalValue(d))
  {
    assert d[|d| - 1] in d;
    assert (d + "s")[..|d + "s"| - 1] == d;
  }

  /** A positive number of seconds, written either way, reads back as itself. */
  lemma ParseTtlOfSeconds(n: nat)
    requires n >= 1
    ensures ParseTtl(FormatDecimal(n)) == Some(n)
    ensures ParseTtl(FormatDecimal(n) + "s") == Some(n)
  {
    DecimalValueOfFormat(n);
    ParseTtlOfDigits(FormatDecimal(n));
  }

  function Ttl(annotations: map<string, string>): Option<nat>
  {
    if TtlKey in annotations then ParseTtl(annotations[TtlKey]) else None
  }

  /** `strconv.ParseBool`: None for a string that is not one of its spellings. */
  function ParseBool(value: string): (b: Option<bool>)
    ensures b == Some(true) <==> value in TrueSpellings
    ensures b == Some(false) <==> value in FalseSpellings
  {
    if value in TrueSpellings then Some(true)
    else if value in FalseSpellings then Some(false)
    else None
  }

  const TrueSpellings: set<string> := {"1", "t", "T", "TRUE", "true", "True"}
  const FalseSpellings: set<string> := {"0", "f", "F", "FALSE", "false", "False"}

  /** The alias flag: false when absent or unparsable. */
  predicate Alias(annotations: map<string, string>)
  {
    AliasKey in annotations && ParseBool(annotations[AliasKey]) == Some(true)
  }

  /** The hostname-source mode; an absent or unrecognised value means both sources. */
  function HostnameSourceOf(annotations: map<string, string>): (mode: HostnameSource)
    ensures mode == DefinedHostsOnly <==>
              HostnameSourceKey in annotations && annotations[HostnameSourceKey] == "defined-hosts-only"
    ensures mode == AnnotationOnly <==>
              HostnameSourceKey in annotations && annotations[HostnameSourceKey] == "annotation-only"
  {
    if HostnameSourceKey !in annotations then AllSources
    else if annotations[HostnameSourceKey] == "defined-hosts-only" then DefinedHostsOnly
    else if annotations[HostnameSourceKey] == "annotation-only" then AnnotationOnly
    else AllSources
  }

  /** Ownership: an absent controller annotation means ours; another value means someone else's. */
  predicate ControlledByUs(annotations: map<string, string>)
  {
    ControllerKey !in annotations || annotations[ControllerKey] == ControllerValue
  }
}
