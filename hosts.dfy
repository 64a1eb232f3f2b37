/**
 * The hostname collector: the candidate DNS names of one ingress, from its
 * rules, its TLS blocks and its hostname annotation, under the three ignore
 * switches and the ingress's hostname-source mode.
 */
module Hosts {
  import opened Networking
  import opened Annotations

  /** The source's three switches that turn a host source off. */
  datatype Flags = Flags(ignoreHostnameAnnotation: bool, ignoreTLS: bool, ignoreRules: bool)

  /** The hosts of the rules, in order, the unset ("") ones skipped. */
  function RuleHosts(rules: seq<IngressRule>): (hosts: seq<string>)
    ensures |hosts| <= |rules|
    ensures forall h :: h in hosts ==> h != ""
  {
    if |rules| == 0 then []
    else (if rules[0].host != "" then [rules[0].host] else []) + RuleHosts(rules[1..])
  }

  /** The non-empty hosts of one TLS block, in order. */
  function BlockHosts(hosts: seq<string>): (r: seq<string>)
    ensures |r| <= |hosts|
    ensures forall h :: h in r <==> h in hosts && h != ""
  {
    if |hosts| == 0 then []
    else (if hosts[0] != "" then [hosts[0]] else []) + BlockHosts(hosts[1..])
  }

  /** The hosts of all TLS blocks, block by block, the empty ones skipped. */
  function TlsHosts(tls: seq<IngressTLS>): (hosts: seq<string>)
    ensures forall h :: h in hosts ==> h != ""
  {
    if |tls| == 0 then [] else BlockHosts(tls[0].hosts) + TlsHosts(tls[1..])
  }

  /** A host is a rule host exactly when some rule declares it. */
  lemma {:induction false} RuleHostsMembership(rules: seq<IngressRule>, h: string)
    ensures h in RuleHosts(rules) <==> h != "" && exists r :: r in rules && r.host == h
    decreases |rules|
  {
    if |rules| > 0 {
      RuleHostsMembership(rules[1..], h);
      assert rules[0] in rules;
      assert forall r :: r in rules ==> r == rules[0] || r in rules[1..];
      assert forall r :: r in rules[1..] ==> r in rules;
    }
  }

  /** A host is a TLS host exactly when some TLS block lists it. */
  lemma {:induction false} TlsHostsMembership(tls: seq<IngressTLS>, h: string)
    ensures h in TlsHosts(tls) <==> h != "" && exists b :: b in tls && h in b.hosts
    decreases |tls|
  {
    if |tls| > 0 {
      TlsHostsMembership(tls[1..], h);
      assert tls[0] in tls;
      assert forall b :: b in tls ==> b == tls[0] || b in tls[1..];
      assert forall b :: b in tls[1..] ==> b in tls;
    }
  }

  /** The hosts the ingress spec defines: rule hosts, then TLS hosts, each unless ignored. */
  function DefinedHosts(spec: IngressSpec, flags: Flags): seq<string>
  {
    (if flags.ignoreRules then [] else RuleHosts(spec.rules))
    + (if flags.ignoreTLS then [] else TlsHosts(spec.tls))
  }

  /**
   * All candidate hosts of an ingress. When the hostname annotation is present
   * and not ignored, the mode decides: the defined hosts only, the annotation's
   * hosts only, or both with the defined hosts first. Otherwise the defined
   * hosts are the candidates.
   */
  function CollectHosts(ing: Ingress, flags: Flags): (hosts: seq<string>)
    ensures forall h :: h in hosts ==> h != ""
  {
    var annotations := ing.meta.annotations;
    var defined := DefinedHosts(ing.spec, flags);
    if HostnameKey in annotations && !flags.ignoreHostnameAnnotation then
      match HostnameSourceOf(annotations)
      case DefinedHostsOnly => defined
      case AnnotationOnly => Hostnames(annotations)
      case AllSources => defined + Hostnames(annotations)
    else defined
  }

  /**
   * Every candidate host comes from a source that is switched on: a rule, a TLS
   * block or the hostname annotation.
   */
  lemma HostOrigin(ing: Ingress, flags: Flags, h: string)
    requires h in CollectHosts(ing, flags)
    ensures || (!flags.ignoreRules && exists r :: r in ing.spec.rules && r.host == h)
            || (!flags.ignoreTLS && exists b :: b in ing.spec.tls && h in b.hosts)
            || (!flags.ignoreHostnameAnnotation && h in Hostnames(ing.meta.annotations))
  {
    RuleHostsMembership(ing.spec.rules, h);
    TlsHostsMembership(ing.spec.tls, h);
  }

  /** In the default mode every declared host is a candidate, from each source that is switched on. */
  lemma DefaultModeKeepsEverySource(ing: Ingress, flags: Flags, h: string)
    requires HostnameSourceOf(ing.meta.annotations) == AllSources
    requires || (!flags.ignoreRules && h != "" && exists r :: r in ing.spec.rules && r.host == h)
             || (!flags.ignoreTLS && h != "" && exists b :: b in ing.spec.tls && h in b.hosts)
             || (!flags.ignoreHostnameAnnotation && h in Hostnames(ing.meta.annotations))
    ensures h in CollectHosts(ing, flags)
  {
    RuleHostsMembership(ing.spec.rules, h);
    TlsHostsMembership(ing.spec.tls, h);
  }

  /** `defined-hosts-only` is the same as ignoring the hostname annotation. */
  lemma DefinedHostsOnlyIgnoresAnnotation(ing: Ingress, flags: Flags)
    requires HostnameSourceOf(ing.meta.annotations) == DefinedHostsOnly
    ensures CollectHosts(ing, flags) == CollectHosts(ing, flags.(ignoreHostnameAnnotation := true))
    ensures CollectHosts(ing, flags) == DefinedHosts(ing.spec, flags)
  {
  }

  /**
   * `annotation-only` with the annotation present and read: the annotation's
   * hosts alone, whatever the rules, the TLS blocks and their switches say.
   */
  lemma AnnotationOnlyUsesAnnotation(ing: Ingress, flags: Flags, other: IngressSpec, otherFlags: Flags)
    requires HostnameSourceOf(ing.meta.annotations) == AnnotationOnly
    requires HostnameKey in ing.meta.annotations
    requires !flags.ignoreHostnameAnnotation && !otherFlags.ignoreHostnameAnnotation
    ensures CollectHosts(ing, flags) == Hostnames(ing.meta.annotations)
    ensures CollectHosts(ing, flags) == CollectHosts(ing.(spec := other), otherFlags)
  {
  }

  /** With the annotation ignored or absent the mode plays no part. */
  lemma NoAnnotationHostsWithoutAnnotation(ing: Ingress, flags: Flags)
    requires flags.ignoreHostnameAnnotation || HostnameKey !in ing.meta.annotations
    ensures CollectHosts(ing, flags) == DefinedHosts(ing.spec, flags)
  {
  }

  /** The rule hosts of a built ingress are its dnsnames, the empty ones dropped. */
  lemma {:induction false} RuleHostsOfBuild(dnsnames: seq<string>)
    ensures RuleHosts(RulesFor(dnsnames)) == BlockHosts(dnsnames)
    decreases |dnsnames|
  {
    if |dnsnames| > 0 {
      assert RulesFor(dnsnames)[1..] == RulesFor(dnsnames[1..]);
      RuleHostsOfBuild(dnsnames[1..]);
    }
  }
}
