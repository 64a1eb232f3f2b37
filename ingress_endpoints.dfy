/**
 * The endpoint assembler, `endpointsFromIngress`: for every candidate host of
 * an ingress, one record per non-empty target group, carrying the ingress's
 * TTL, its alias marker (on CNAME records) and its resource label.
 */
module IngressEndpoints {
  import opened Wrappers
  import opened Strings
  import opened Addresses
  import opened Networking
  import opened Endpoint
  import opened Annotations
  import opened Targets
  import opened Hosts

  /** What every record of one ingress shares. */
  datatype RecordOptions = RecordOptions(ttl: Option<nat>, alias: bool, resource: string)

  /** The resource identity `ingress/<namespace>/<name>`. */
  function Resource(meta: ObjectMeta): string
  {
    "ingress/" + meta.namespace + "/" + meta.name
  }

  function ResourceLabels(resource: string): map<string, string>
  {
    map[ResourceLabelKey := resource]
  }

  const AliasProperty: ProviderSpecificProperty := ProviderSpecificProperty("alias", "true")

  /** The options an ingress's annotations and identity give its records. */
  function OptionsOf(ing: Ingress): (opts: RecordOptions)
    ensures opts.ttl.Some? ==> opts.ttl.value >= 1
  {
    RecordOptions(Ttl(ing.meta.annotations), Alias(ing.meta.annotations), Resource(ing.meta))
  }

  /** One record of one type for a host, or none when the group is empty or the name is refused. */
  function Record(host: string, recordType: RecordType, targets: seq<string>, opts: RecordOptions): (eps: seq<Endpoint>)
    ensures |eps| <= 1
    ensures eps != [] <==> targets != [] && ValidDNSName(TrimSuffix(host, '.'))
    ensures forall e :: e in eps ==>
              e.dnsName == TrimSuffix(host, '.') && e.recordType == recordType && e.targets == targets && e.recordTTL == opts.ttl
  {
    if targets == [] then []
    else match NewEndpoint(host, recordType, opts.ttl, targets)
      case None => []
      case Some(e) =>
        var extensions := if opts.alias && recordType == CNAME then [AliasProperty] else [];
        [e.(providerSpecific := extensions, labels := ResourceLabels(opts.resource))]
  }

  /** `EndpointsForHostname`: the A, AAAA and CNAME records of one host, in that order. */
  function EndpointsForHostname(host: string, g: TargetGroups, opts: RecordOptions): (eps: seq<Endpoint>)
    ensures |eps| <= 3
  {
    Record(host, A, g.ipv4, opts) + Record(host, AAAA, g.ipv6, opts) + Record(host, CNAME, g.hostnames, opts)
  }

  /** The records of every host, host by host. */
  function EndpointsForHosts(hosts: seq<string>, g: TargetGroups, opts: RecordOptions): (eps: seq<Endpoint>)
    ensures |eps| <= 3 * |hosts|
  {
    if |hosts| == 0 then [] else EndpointsForHostname(hosts[0], g, opts) + EndpointsForHosts(hosts[1..], g, opts)
  }

  /** `endpointsFromIngress(ingress, ignoreHostnameAnnotation, ignoreTLS, ignoreRules)`. */
  function EndpointsFromIngress(ing: Ingress, flags: Flags): seq<Endpoint>
  {
    EndpointsForHosts(
      CollectHosts(ing, flags),
      ResolveGroups(ing.meta.annotations, ing.loadBalancer),
      OptionsOf(ing))
  }

  /**
   * A record as the rest of the controller may rely on it: a valid name,
   * targets of its record type and never none, a positive TTL if any, the
   * alias marker only on a CNAME, and exactly the resource label.
   */
  predicate WellFormed(e: Endpoint, resource: string)
  {
    && ValidDNSName(e.dnsName)
    && |e.targets| > 0
    && (e.recordType == A ==> forall t :: t in e.targets ==> Classify(t) == IPv4)
    && (e.recordType == AAAA ==> forall t :: t in e.targets ==> Classify(t) == IPv6)
    && (e.recordType == CNAME ==> forall t :: t in e.targets ==> t != "")
    && (e.recordTTL.Some? ==> e.recordTTL.value >= 1)
    && (e.providerSpecific == [] || (e.recordType == CNAME && e.providerSpecific == [AliasProperty]))
    && e.labels == ResourceLabels(resource)
  }

  /** Options that keep records well formed. */
  predicate ValidOptions(opts: RecordOptions)
  {
    opts.ttl.Some? ==> opts.ttl.value >= 1
  }

  /** A record made from targets of its own type is well formed and named after its host. */
  lemma RecordWellFormed(host: string, recordType: RecordType, targets: seq<string>, opts: RecordOptions)
    requires ValidOptions(opts)
    requires recordType == A ==> forall t :: t in targets ==> Classify(t) == IPv4
    requires recordType == AAAA ==> forall t :: t in targets ==> Classify(t) == IPv6
    requires recordType == CNAME ==> forall t :: t in targets ==> t != ""
    ensures forall e :: e in Record(host, recordType, targets, opts) ==>
              && WellFormed(e, opts.resource)
              && e.dnsName == TrimSuffix(host, '.') && e.recordType == recordType && e.targets == targets
              && e.recordTTL == opts.ttl
              && (e.providerSpecific == [AliasProperty] <==> opts.alias && recordType == CNAME)
  {
  }

  /** Every record of a host is well formed and named after the host. */
  lemma HostnameRecordsWellFormed(host: string, g: TargetGroups, opts: RecordOptions)
    requires Homogeneous(g) && ValidOptions(opts)
    ensures forall e :: e in EndpointsForHostname(host, g, opts) ==>
              WellFormed(e, opts.resource) && e.dnsName == TrimSuffix(host, '.')
  {
    RecordWellFormed(host, A, g.ipv4, opts);
    RecordWellFormed(host, AAAA, g.ipv6, opts);
    RecordWellFormed(host, CNAME, g.hostnames, opts);
  }

  /** Every record of a list of hosts is well formed and named after one of the hosts. */
  lemma {:induction false} HostsRecordsWellFormed(hosts: seq<string>, g: TargetGroups, opts: RecordOptions)
    requires Homogeneous(g) && ValidOptions(opts)
    ensures forall e :: e in EndpointsForHosts(hosts, g, opts) ==>
              WellFormed(e, opts.resource) && exists h :: h in hosts && e.dnsName == TrimSuffix(h, '.')
    decreases |hosts|
  {
    if |hosts| > 0 {
      HostnameRecordsWellFormed(hosts[0], g, opts);
      HostsRecordsWellFormed(hosts[1..], g, opts);
      assert hosts[0] in hosts;
      assert forall h :: h in hosts[1..] ==> h in hosts;
    }
  }

  /**
   * Every record `endpointsFromIngress` returns is well formed, carries the
   * ingress's resource label and is named after one of its candidate hosts.
   */
  lemma EndpointsFromIngressWellFormed(ing: Ingress, flags: Flags)
    ensures forall e :: e in EndpointsFromIngress(ing, flags) ==>
              WellFormed(e, Resource(ing.meta))
              && ResourceLabelKey in e.labels && e.labels[ResourceLabelKey] == Resource(ing.meta)
              && exists h :: h in CollectHosts(ing, flags) && e.dnsName == TrimSuffix(h, '.')
  {
    ResolveGroupsHomogeneous(ing.meta.annotations, ing.loadBalancer);
    HostsRecordsWellFormed(CollectHosts(ing, flags), ResolveGroups(ing.meta.annotations, ing.loadBalancer), OptionsOf(ing));
  }

  /** The records of a list of hosts split along the list. */
  lemma {:induction false} EndpointsForHostsAppend(a: seq<string>, b: seq<string>, g: TargetGroups, opts: RecordOptions)
    ensures EndpointsForHosts(a + b, g, opts) == EndpointsForHosts(a, g, opts) + EndpointsForHosts(b, g, opts)
    decreases |a|
  {
    if |a| == 0 {
      assert a + b == b;
    } else {
      HeadOfAppend(a, b);
      EndpointsForHostsAppend(a[1..], b, g, opts);
      AppendAssociative(EndpointsForHostname(a[0], g, opts), EndpointsForHosts(a[1..], g, opts), EndpointsForHosts(b, g, opts));
    }
  }

  /**
   * A host gets a record of a type exactly when its name is valid and the
   * group of that type is not empty; the record holds the whole group.
   */
  lemma HostRecordOfType(host: string, g: TargetGroups, opts: RecordOptions, recordType: RecordType)
    ensures var group := match recordType case A => g.ipv4 case AAAA => g.ipv6 case CNAME => g.hostnames;
            (exists e :: e in EndpointsForHostname(host, g, opts) && e.recordType == recordType)
              <==> ValidDNSName(TrimSuffix(host, '.')) && group != []
    ensures forall e :: e in EndpointsForHostname(host, g, opts) && e.recordType == recordType ==>
              e.targets == (match recordType case A => g.ipv4 case AAAA => g.ipv6 case CNAME => g.hostnames)
  {
    var group := match recordType case A => g.ipv4 case AAAA => g.ipv6 case CNAME => g.hostnames;
    var own := Record(host, recordType, group, opts);
    assert forall e :: e in own ==> e in EndpointsForHostname(host, g, opts);
    if own != [] {
      assert own[0] in own;
    }
  }

  /** No target at all means no record, whatever the hosts. */
  lemma {:induction false} NoTargetsNoRecords(hosts: seq<string>, g: TargetGroups, opts: RecordOptions)
    requires IsEmpty(g)
    ensures EndpointsForHosts(hosts, g, opts) == []
    decreases |hosts|
  {
    if |hosts| > 0 {
      NoTargetsNoRecords(hosts[1..], g, opts);
    }
  }

  /** No host with a valid name means no record, whatever the targets. */
  lemma {:induction false} NoValidHostNoRecords(hosts: seq<string>, g: TargetGroups, opts: RecordOptions)
    requires forall h :: h in hosts ==> !ValidDNSName(TrimSuffix(h, '.'))
    ensures EndpointsForHosts(hosts, g, opts) == []
    decreases |hosts|
  {
    if |hosts| > 0 {
      assert hosts[0] in hosts;
      assert forall h :: h in hosts[1..] ==> h in hosts;
      NoValidHostNoRecords(hosts[1..], g, opts);
    }
  }

  /** A host with a valid name and some target gives at least one record. */
  lemma {:induction false} ValidHostGivesRecords(hosts: seq<string>, g: TargetGroups, opts: RecordOptions, h: string)
    requires h in hosts && ValidDNSName(TrimSuffix(h, '.')) && !IsEmpty(g)
    ensures EndpointsForHosts(hosts, g, opts) != []
    decreases |hosts|
  {
    if hosts[0] == h {
      assert EndpointsForHostname(h, g, opts) != [];
    } else {
      assert h in hosts[1..];
      ValidHostGivesRecords(hosts[1..], g, opts, h);
    }
  }

  /**
   * A list of hosts yields no record exactly when there is no target, or no
   * host whose name is valid.
   */
  lemma NoRecordsIff(hosts: seq<string>, g: TargetGroups, opts: RecordOptions)
    ensures EndpointsForHosts(hosts, g, opts) == [] <==>
              IsEmpty(g) || forall h :: h in hosts ==> !ValidDNSName(TrimSuffix(h, '.'))
  {
    if IsEmpty(g) {
      NoTargetsNoRecords(hosts, g, opts);
    } else if forall h :: h in hosts ==> !ValidDNSName(TrimSuffix(h, '.')) {
      NoValidHostNoRecords(hosts, g, opts);
    } else {
      var h :| h in hosts && ValidDNSName(TrimSuffix(h, '.'));
      ValidHostGivesRecords(hosts, g, opts, h);
    }
  }

  /**
   * In the default mode the records are those of the defined hosts followed by
   * those of the annotation's hosts.
   */
  lemma DefaultModeRecords(ing: Ingress, flags: Flags)
    requires HostnameSourceOf(ing.meta.annotations) == AllSources
    requires HostnameKey in ing.meta.annotations && !flags.ignoreHostnameAnnotation
    ensures EndpointsFromIngress(ing, flags)
         == EndpointsFromIngress(ing, flags.(ignoreHostnameAnnotation := true))
            + EndpointsForHosts(Hostnames(ing.meta.annotations),
                                ResolveGroups(ing.meta.annotations, ing.loadBalancer), OptionsOf(ing))
  {
    EndpointsForHostsAppend(DefinedHosts(ing.spec, flags), Hostnames(ing.meta.annotations),
                            ResolveGroups(ing.meta.annotations, ing.loadBalancer), OptionsOf(ing));
  }

  /**
   * With the target annotation present, the load balancer does not change the
   * records, and every record points only at the annotation's values.
   */
  lemma OverrideRecords(ing: Ingress, flags: Flags, lb: seq<LoadBalancerIngress>)
    requires TargetKey in ing.meta.annotations
    ensures EndpointsFromIngress(ing, flags) == EndpointsFromIngress(ing.(loadBalancer := lb), flags)
    ensures forall e, t :: e in EndpointsFromIngress(ing, flags) && t in e.targets ==>
              t in Override(ing.meta.annotations).value
  {
    OverrideReplacesStatus(ing.meta.annotations, ing.loadBalancer, lb);
    SameInputsSameRecords(ing, ing.(loadBalancer := lb), flags);
    OverrideTargets(ing, flags);
  }

  /** Two ingresses with the same hosts, groups and options have the same records. */
  lemma SameInputsSameRecords(ing: Ingress, other: Ingress, flags: Flags)
    requires ing.meta == other.meta && ing.spec == other.spec
    requires ResolveGroups(ing.meta.annotations, ing.loadBalancer) == ResolveGroups(other.meta.annotations, other.loadBalancer)
    ensures EndpointsFromIngress(ing, flags) == EndpointsFromIngress(other, flags)
  {
    assert CollectHosts(ing, flags) == CollectHosts(other, flags);
    assert OptionsOf(ing) == OptionsOf(other);
  }

  /** With the target annotation present, every record points only at the annotation's values. */
  lemma OverrideTargets(ing: Ingress, flags: Flags)
    requires TargetKey in ing.meta.annotations
    ensures forall e, t :: e in EndpointsFromIngress(ing, flags) && t in e.targets ==>
              t in Override(ing.meta.annotations).value
  {
    var g := ResolveGroups(ing.meta.annotations, ing.loadBalancer);
    OverrideReplacesStatus(ing.meta.annotations, ing.loadBalancer, ing.loadBalancer);
    TargetsFromGroups(CollectHosts(ing, flags), g, OptionsOf(ing));
    forall t | t in AllTargets(g) ensures t in Override(ing.meta.annotations).value {
      assert t in multiset(AllTargets(g));
    }
  }

  /** Every target of every record is a target of the groups. */
  lemma {:induction false} TargetsFromGroups(hosts: seq<string>, g: TargetGroups, opts: RecordOptions)
    ensures forall e, t :: e in EndpointsForHosts(hosts, g, opts) && t in e.targets ==> t in AllTargets(g)
    decreases |hosts|
  {
    if |hosts| > 0 {
      TargetsFromGroups(hosts[1..], g, opts);
    }
  }

}
