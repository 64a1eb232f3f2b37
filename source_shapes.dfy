/**
 * The kinds of ingress the `Endpoints` table of source/ingress_test.go writes,
 * each with the records the source gives it, stated once for every ingress of
 * that kind so that a row only supplies the facts about its own literals.
 */
module SourceShapes {
  import opened Wrappers
  import opened Strings
  import opened Addresses
  import opened Networking
  import opened Endpoint
  import opened Annotations
  import opened Fqdn
  import opened Targets
  import opened Hosts
  import opened IngressEndpoints
  import opened IngressSource
  import opened TableSupport

  /** A record with a TTL and the alias flag as the options give them. */
  function Full(name: string, recordType: RecordType, targets: seq<string>, ttl: Option<nat>, alias: bool,
                resource: string): Endpoint
  {
    Endpoint(name, recordType, targets, ttl, if alias then [AliasProperty] else [], ResourceLabels(resource))
  }

  // ---- candidate hosts

  /** One rule host and no TLS block. */
  lemma RuleHost(f: FakeIngress, flags: Flags, host: string)
    requires f.dnsnames == [host] && f.tlsdnsnames == [] && !flags.ignoreRules && host != ""
    ensures Defined(f, flags) == [host]
  {
    assert [host][1..] == [];
    assert TlsFor([]) == [];
  }

  /** No rule host that is read and no TLS block that is read. */
  lemma NoDefinedHosts(f: FakeIngress, flags: Flags)
    requires f.dnsnames == [] || flags.ignoreRules
    requires f.tlsdnsnames == [] || flags.ignoreTLS
    ensures Defined(f, flags) == []
  {
    assert TlsFor([]) == [];
  }

  lemma {:induction false} FilledBlock(hosts: seq<string>)
    requires forall h :: h in hosts ==> h != ""
    ensures BlockHosts(hosts) == hosts
    decreases |hosts|
  {
    if |hosts| > 0 {
      assert hosts[0] in hosts;
      assert forall h :: h in hosts[1..] ==> h in hosts;
      FilledBlock(hosts[1..]);
      assert [hosts[0]] + hosts[1..] == hosts;
    }
  }

  /** No rule host and one TLS block of filled hosts. */
  lemma TlsBlock(f: FakeIngress, flags: Flags, block: seq<string>)
    requires f.dnsnames == [] && f.tlsdnsnames == [block] && !flags.ignoreTLS
    requires forall h :: h in block ==> h != ""
    ensures Defined(f, flags) == block
  {
    FilledBlock(block);
    assert TlsFor([block]) == [IngressTLS(block)];
    assert TlsFor([block])[1..] == [];
    assert TlsHosts(TlsFor([block])) == BlockHosts(block) + [];
  }

  /** The hosts of two TLS blocks: the first block's, then the second's. */
  lemma TwoBlockHosts(first: seq<string>, second: seq<string>)
    ensures TlsHosts(TlsFor([first, second])) == BlockHosts(first) + BlockHosts(second)
  {
    var tls := TlsFor([first, second]);
    assert tls[1..] == [IngressTLS(second)];
    assert tls[1..][1..] == [];
    assert TlsHosts(tls[1..]) == BlockHosts(second) + [];
  }

  /** No rule host and two TLS blocks of filled hosts. */
  lemma TlsBlocks(f: FakeIngress, flags: Flags, first: seq<string>, second: seq<string>)
    requires f.dnsnames == [] && f.tlsdnsnames == [first, second] && !flags.ignoreTLS
    requires forall h :: h in first ==> h != ""
    requires forall h :: h in second ==> h != ""
    ensures Defined(f, flags) == first + second
  {
    FilledBlock(first);
    FilledBlock(second);
    TwoBlockHosts(first, second);
    assert [] + (first + second) == first + second;
  }

  // ---- target groups

  lemma StatusA(f: FakeIngress, ip: string)
    requires TargetKey !in f.annotations && f.ips == [ip] && f.hostnames == [] && Classify(ip) == IPv4
    ensures ResolveGroups(Build(f).meta.annotations, Build(f).loadBalancer) == TargetGroups([ip], [], [])
  {
    StatusGroupsOfFake(f);
    SelectUniform([ip], IPv4, IPv6);
  }

  lemma StatusAaaa(f: FakeIngress, ip: string)
    requires TargetKey !in f.annotations && f.ips == [ip] && f.hostnames == [] && Classify(ip) == IPv6
    ensures ResolveGroups(Build(f).meta.annotations, Build(f).loadBalancer) == TargetGroups([], [ip], [])
  {
    StatusGroupsOfFake(f);
    SelectUniform([ip], IPv6, IPv4);
  }

  lemma StatusDual(f: FakeIngress, ip4: string, ip6: string)
    requires TargetKey !in f.annotations && f.ips == [ip4, ip6] && f.hostnames == []
    requires Classify(ip4) == IPv4 && Classify(ip6) == IPv6
    ensures ResolveGroups(Build(f).meta.annotations, Build(f).loadBalancer) == TargetGroups([ip4], [ip6], [])
  {
    StatusGroupsOfFake(f);
    assert [ip4] + [ip6] == [ip4, ip6];
    SelectAppend([ip4], [ip6], IPv4);
    SelectAppend([ip4], [ip6], IPv6);
    SelectUniform([ip4], IPv4, IPv6);
    SelectUniform([ip6], IPv6, IPv4);
  }

  lemma StatusCname(f: FakeIngress, lb: string)
    requires TargetKey !in f.annotations && f.ips == [] && f.hostnames == [lb] && lb != ""
    ensures ResolveGroups(Build(f).meta.annotations, Build(f).loadBalancer) == TargetGroups([], [], [lb])
  {
    StatusGroupsOfFake(f);
    NonEmptyOfFilled([lb]);
  }

  lemma StatusACname(f: FakeIngress, ip: string, lb: string)
    requires TargetKey !in f.annotations && f.ips == [ip] && f.hostnames == [lb]
    requires Classify(ip) == IPv4 && lb != ""
    ensures ResolveGroups(Build(f).meta.annotations, Build(f).loadBalancer) == TargetGroups([ip], [], [lb])
  {
    StatusGroupsOfFake(f);
    SelectUniform([ip], IPv4, IPv6);
    NonEmptyOfFilled([lb]);
  }

  /** A target annotation naming one host: one CNAME target, whatever the load balancer holds. */
  lemma OverrideName(f: FakeIngress, t: string)
    requires TargetKey in f.annotations && f.annotations[TargetKey] == t
    requires IsTrimmedEntry(t, ',') && Classify(t) == NotAnAddress
    ensures ResolveGroups(Build(f).meta.annotations, Build(f).loadBalancer) == TargetGroups([], [], [t])
  {
    SplitListOne(t);
    OverrideGroupsOfFake(f, [t]);
    SelectUniform([t], NotAnAddress, IPv4);
    SelectUniform([t], NotAnAddress, IPv6);
  }

  /** A target annotation holding one IPv4 address: one A target. */
  lemma OverrideIPv4(f: FakeIngress, t: string)
    requires TargetKey in f.annotations && f.annotations[TargetKey] == t
    requires IsTrimmedEntry(t, ',') && Classify(t) == IPv4
    ensures ResolveGroups(Build(f).meta.annotations, Build(f).loadBalancer) == TargetGroups([t], [], [])
  {
    SplitListOne(t);
    OverrideGroupsOfFake(f, [t]);
    SelectUniform([t], IPv4, IPv6);
    SelectUniform([t], IPv4, NotAnAddress);
  }

  // ---- an ingress's own records, no template

  lemma NoRecordKeysFacts(annotations: map<string, string>)
    requires NoRecordKeys(annotations)
    ensures Ttl(annotations) == None && !Alias(annotations) && TargetKey !in annotations
  {
  }

  /** The target annotation alone sets neither TTL nor alias. */
  lemma TargetOnly(t: string)
    ensures Ttl(map[TargetKey := t]) == None && !Alias(map[TargetKey := t])
    ensures HostnameKey !in map[TargetKey := t]
  {
    KeyLengths();
  }

  /** The hosts and groups a row establishes give the ingress's own records. */
  lemma Own(cfg: Config, f: FakeIngress, hosts: seq<string>, g: TargetGroups, ttl: Option<nat>, alias: bool,
            expected: seq<Endpoint>)
    requires cfg.fqdnTemplate == ""
    requires CollectHosts(Build(f), cfg.flags) == hosts
    requires ResolveGroups(Build(f).meta.annotations, Build(f).loadBalancer) == g
    requires Ttl(f.annotations) == ttl && Alias(f.annotations) == alias
    requires forall h :: h in hosts ==> PlainValid(h)
    requires HostsForm(hosts, g, RecordOptions(ttl, alias, Owner(f.namespace, f.name))) == expected
    ensures IngressRecords(cfg, Build(f)) == expected
  {
    OptionsOfFake(f, ttl, alias);
    AssembleOwn(cfg, Build(f), hosts, g, RecordOptions(ttl, alias, Owner(f.namespace, f.name)), expected);
  }

  /** One rule host and one IPv4 entry: one A record. */
  lemma OwnA(cfg: Config, f: FakeIngress, host: string, ip: string)
    requires f.dnsnames == [host] && f.tlsdnsnames == [] && f.ips == [ip] && f.hostnames == []
    requires NoRecordKeys(f.annotations)
    requires cfg.fqdnTemplate == "" && !cfg.flags.ignoreRules
    requires PlainValid(host) && Classify(ip) == IPv4
    ensures IngressRecords(cfg, Build(f)) == [Rec(host, A, [ip], Owner(f.namespace, f.name))]
  {
    var g := TargetGroups([ip], [], []);
    NoRecordKeysFacts(f.annotations);
    HostsWithoutAnnotation(f, cfg.flags);
    RuleHost(f, cfg.flags, host);
    StatusA(f, ip);
    OneHost(host, g, RecordOptions(None, false, Owner(f.namespace, f.name)));
    Own(cfg, f, [host], g, None, false, [Rec(host, A, [ip], Owner(f.namespace, f.name))]);
  }

  /** One rule host and one IPv6 entry: one AAAA record. */
  lemma OwnAaaa(cfg: Config, f: FakeIngress, host: string, ip: string)
    requires f.dnsnames == [host] && f.tlsdnsnames == [] && f.ips == [ip] && f.hostnames == []
    requires NoRecordKeys(f.annotations)
    requires cfg.fqdnTemplate == "" && !cfg.flags.ignoreRules
    requires PlainValid(host) && Classify(ip) == IPv6
    ensures IngressRecords(cfg, Build(f)) == [Rec(host, AAAA, [ip], Owner(f.namespace, f.name))]
  {
    var g := TargetGroups([], [ip], []);
    NoRecordKeysFacts(f.annotations);
    HostsWithoutAnnotation(f, cfg.flags);
    RuleHost(f, cfg.flags, host);
    StatusAaaa(f, ip);
    OneHost(host, g, RecordOptions(None, false, Owner(f.namespace, f.name)));
    Own(cfg, f, [host], g, None, false, [Rec(host, AAAA, [ip], Owner(f.namespace, f.name))]);
  }

  /** One rule host, an IPv4 and an IPv6 entry: an A record, then an AAAA record. */
  lemma OwnDual(cfg: Config, f: FakeIngress, host: string, ip4: string, ip6: string)
    requires f.dnsnames == [host] && f.tlsdnsnames == [] && f.ips == [ip4, ip6] && f.hostnames == []
    requires NoRecordKeys(f.annotations)
    requires cfg.fqdnTemplate == "" && !cfg.flags.ignoreRules
    requires PlainValid(host) && Classify(ip4) == IPv4 && Classify(ip6) == IPv6
    ensures IngressRecords(cfg, Build(f))
         == [Rec(host, A, [ip4], Owner(f.namespace, f.name)), Rec(host, AAAA, [ip6], Owner(f.namespace, f.name))]
  {
    var g := TargetGroups([ip4], [ip6], []);
    NoRecordKeysFacts(f.annotations);
    HostsWithoutAnnotation(f, cfg.flags);
    RuleHost(f, cfg.flags, host);
    StatusDual(f, ip4, ip6);
    OneHost(host, g, RecordOptions(None, false, Owner(f.namespace, f.name)));
    Own(cfg, f, [host], g, None, false,
        [Rec(host, A, [ip4], Owner(f.namespace, f.name)), Rec(host, AAAA, [ip6], Owner(f.namespace, f.name))]);
  }

  /** One rule host and one load-balancer host name: one CNAME record. */
  lemma OwnCname(cfg: Config, f: FakeIngress, host: string, lb: string)
    requires f.dnsnames == [host] && f.tlsdnsnames == [] && f.ips == [] && f.hostnames == [lb]
    requires HostnameKey !in f.annotations || cfg.flags.ignoreHostnameAnnotation
    requires TargetKey !in f.annotations && TtlKey !in f.annotations && AliasKey !in f.annotations
    requires cfg.fqdnTemplate == "" && !cfg.flags.ignoreRules
    requires PlainValid(host) && lb != ""
    ensures IngressRecords(cfg, Build(f)) == [Rec(host, CNAME, [lb], Owner(f.namespace, f.name))]
  {
    var g := TargetGroups([], [], [lb]);
    HostsWithoutAnnotation(f, cfg.flags);
    RuleHost(f, cfg.flags, host);
    StatusCname(f, lb);
    OneHost(host, g, RecordOptions(None, false, Owner(f.namespace, f.name)));
    Own(cfg, f, [host], g, None, false, [Rec(host, CNAME, [lb], Owner(f.namespace, f.name))]);
  }

  /** No host that is read and no template: no record. */
  lemma OwnNothing(cfg: Config, f: FakeIngress)
    requires f.dnsnames == [] || cfg.flags.ignoreRules
    requires f.tlsdnsnames == [] || cfg.flags.ignoreTLS
    requires HostnameKey !in f.annotations && cfg.fqdnTemplate == ""
    ensures IngressRecords(cfg, Build(f)) == []
  {
    HostsWithoutAnnotation(f, cfg.flags);
    NoDefinedHosts(f, cfg.flags);
  }

  /** The hosts of one TLS block and one IPv4 entry: an A record per host. */
  lemma TlsA(cfg: Config, f: FakeIngress, block: seq<string>, ip: string, expected: seq<Endpoint>)
    requires f.dnsnames == [] && f.tlsdnsnames == [block] && f.ips == [ip] && f.hostnames == []
    requires NoRecordKeys(f.annotations)
    requires cfg.fqdnTemplate == "" && !cfg.flags.ignoreTLS
    requires forall h :: h in block ==> PlainValid(h)
    requires Classify(ip) == IPv4
    requires HostsForm(block, TargetGroups([ip], [], []), RecordOptions(None, false, Owner(f.namespace, f.name))) == expected
    ensures IngressRecords(cfg, Build(f)) == expected
  {
    NoRecordKeysFacts(f.annotations);
    HostsWithoutAnnotation(f, cfg.flags);
    TlsBlock(f, cfg.flags, block);
    StatusA(f, ip);
    Own(cfg, f, block, TargetGroups([ip], [], []), None, false, expected);
  }

  /** An ingress whose only host is in one TLS block: one A record. */
  lemma TlsOneA(cfg: Config, f: FakeIngress, host: string, ip: string)
    requires f.dnsnames == [] && f.tlsdnsnames == [[host]] && f.ips == [ip] && f.hostnames == []
    requires NoRecordKeys(f.annotations)
    requires cfg.fqdnTemplate == "" && !cfg.flags.ignoreTLS
    requires PlainValid(host) && Classify(ip) == IPv4
    ensures IngressRecords(cfg, Build(f)) == [Rec(host, A, [ip], Owner(f.namespace, f.name))]
  {
    OneHost(host, TargetGroups([ip], [], []), RecordOptions(None, false, Owner(f.namespace, f.name)));
    TlsA(cfg, f, [host], ip, [Rec(host, A, [ip], Owner(f.namespace, f.name))]);
  }

  /** One TLS block of two hosts: an A record for each, in the block's order. */
  lemma TlsTwoA(cfg: Config, f: FakeIngress, h1: string, h2: string, ip: string)
    requires f.dnsnames == [] && f.tlsdnsnames == [[h1, h2]] && f.ips == [ip] && f.hostnames == []
    requires NoRecordKeys(f.annotations)
    requires cfg.fqdnTemplate == "" && !cfg.flags.ignoreTLS
    requires PlainValid(h1) && PlainValid(h2) && Classify(ip) == IPv4
    ensures IngressRecords(cfg, Build(f))
         == [Rec(h1, A, [ip], Owner(f.namespace, f.name)), Rec(h2, A, [ip], Owner(f.namespace, f.name))]
  {
    HostsFormTwo(h1, h2, TargetGroups([ip], [], []), RecordOptions(None, false, Owner(f.namespace, f.name)));
    TlsA(cfg, f, [h1, h2], ip,
         [Rec(h1, A, [ip], Owner(f.namespace, f.name)), Rec(h2, A, [ip], Owner(f.namespace, f.name))]);
  }

  /** Two TLS blocks of two hosts each: an A record per host, block by block. */
  lemma TlsFourA(cfg: Config, f: FakeIngress, h1: string, h2: string, h3: string, h4: string, ip: string)
    requires f.dnsnames == [] && f.tlsdnsnames == [[h1, h2], [h3, h4]] && f.ips == [ip] && f.hostnames == []
    requires NoRecordKeys(f.annotations)
    requires cfg.fqdnTemplate == "" && !cfg.flags.ignoreTLS
    requires PlainValid(h1) && PlainValid(h2) && PlainValid(h3) && PlainValid(h4) && Classify(ip) == IPv4
    ensures IngressRecords(cfg, Build(f))
         == [Rec(h1, A, [ip], Owner(f.namespace, f.name)), Rec(h2, A, [ip], Owner(f.namespace, f.name)),
             Rec(h3, A, [ip], Owner(f.namespace, f.name)), Rec(h4, A, [ip], Owner(f.namespace, f.name))]
  {
    var g := TargetGroups([ip], [], []);
    var o := Owner(f.namespace, f.name);
    var expected := [Rec(h1, A, [ip], o), Rec(h2, A, [ip], o), Rec(h3, A, [ip], o), Rec(h4, A, [ip], o)];
    NoRecordKeysFacts(f.annotations);
    assert CollectHosts(Build(f), cfg.flags) == [h1, h2, h3, h4] by {
      HostsWithoutAnnotation(f, cfg.flags);
      TlsBlocks(f, cfg.flags, [h1, h2], [h3, h4]);
      assert [h1, h2] + [h3, h4] == [h1, h2, h3, h4];
    }
    assert ResolveGroups(Build(f).meta.annotations, Build(f).loadBalancer) == g by {
      StatusA(f, ip);
    }
    assert HostsForm([h1, h2, h3, h4], g, RecordOptions(None, false, o)) == expected by {
      HostsFormFour(h1, h2, h3, h4, g, RecordOptions(None, false, o));
      FormA(h1, ip, o);
      FormA(h2, ip, o);
      FormA(h3, ip, o);
      FormA(h4, ip, o);
      Join1111(Rec(h1, A, [ip], o), Rec(h2, A, [ip], o), Rec(h3, A, [ip], o), Rec(h4, A, [ip], o));
    }
    Own(cfg, f, [h1, h2, h3, h4], g, None, false, expected);
  }

  /** The read hostname annotation in the default mode adds its entries after the one rule host. */
  lemma HostnameHosts(f: FakeIngress, flags: Flags, host: string, listed: seq<string>)
    requires f.dnsnames == [host] && f.tlsdnsnames == [] && flags == NoFlags && host != ""
    requires HostnameKey in f.annotations && HostnameSourceKey !in f.annotations
    requires SplitList(f.annotations[HostnameKey], ',') == listed
    ensures CollectHosts(Build(f), flags) == [host] + listed
  {
    HostsWithAnnotation(f, flags, listed);
    RuleHost(f, flags, host);
  }

  lemma HostnameOnlyKeys(v: string)
    ensures HostnameKey in map[HostnameKey := v] && map[HostnameKey := v][HostnameKey] == v
    ensures HostnameSourceKey !in map[HostnameKey := v]
    ensures NoTargetKeys(map[HostnameKey := v])
  {
    KeyLengths();
  }

  lemma HostnameTargetKeys(v: string, t: string)
    ensures HostnameKey in map[HostnameKey := v, TargetKey := t]
    ensures map[HostnameKey := v, TargetKey := t][HostnameKey] == v
    ensures map[HostnameKey := v, TargetKey := t][TargetKey] == t
    ensures HostnameSourceKey !in map[HostnameKey := v, TargetKey := t]
    ensures Ttl(map[HostnameKey := v, TargetKey := t]) == None && !Alias(map[HostnameKey := v, TargetKey := t])
  {
    KeyLengths();
  }

  /** No target, TTL or alias annotation. */
  predicate NoTargetKeys(annotations: map<string, string>)
  {
    TargetKey !in annotations && TtlKey !in annotations && AliasKey !in annotations
  }

  /** One rule host and a hostname annotation naming one more: those two hosts, no target options. */
  lemma OneAnnotatedHost(f: FakeIngress, flags: Flags, host: string, extra: string)
    requires f.dnsnames == [host] && f.tlsdnsnames == [] && flags == NoFlags && host != ""
    requires f.annotations == map[HostnameKey := extra] && IsTrimmedEntry(extra, ',')
    ensures CollectHosts(Build(f), flags) == [host, extra]
    ensures TargetKey !in f.annotations && Ttl(f.annotations) == None && !Alias(f.annotations)
  {
    HostnameOnlyKeys(extra);
    SplitListOne(extra);
    HostnameHosts(f, flags, host, [extra]);
    Join11(host, extra);
  }

  /** One rule host, a hostname annotation naming one more, and one IPv4 entry: those hosts and that target. */
  lemma AnnotatedHostA(f: FakeIngress, host: string, extra: string, ip: string)
    requires f.dnsnames == [host] && f.tlsdnsnames == [] && host != ""
    requires f.annotations == map[HostnameKey := extra] && IsTrimmedEntry(extra, ',')
    requires f.ips == [ip] && f.hostnames == [] && Classify(ip) == IPv4
    ensures CollectHosts(Build(f), NoFlags) == [host, extra]
    ensures ResolveGroups(Build(f).meta.annotations, Build(f).loadBalancer) == TargetGroups([ip], [], [])
    ensures Ttl(f.annotations) == None && !Alias(f.annotations)
  {
    OneAnnotatedHost(f, NoFlags, host, extra);
    StatusA(f, ip);
  }

  /** One rule host and a hostname annotation naming two more: those three hosts, no target options. */
  lemma TwoAnnotatedHosts(f: FakeIngress, flags: Flags, host: string, e1: string, e2: string)
    requires f.dnsnames == [host] && f.tlsdnsnames == [] && flags == NoFlags && host != ""
    requires f.annotations == map[HostnameKey := e1 + ", " + e2] && IsTrimmedEntry(e1, ',') && IsTrimmedEntry(e2, ',')
    ensures CollectHosts(Build(f), flags) == [host, e1, e2]
    ensures TargetKey !in f.annotations && Ttl(f.annotations) == None && !Alias(f.annotations)
  {
    HostnameOnlyKeys(e1 + ", " + e2);
    SplitListTwo(e1, e2);
    HostnameHosts(f, flags, host, [e1, e2]);
    Join12(host, e1, e2);
  }

  /** One rule host and a hostname annotation naming one more: an A record for each. */
  lemma HostnameA(cfg: Config, f: FakeIngress, host: string, extra: string, ip: string)
    requires cfg.fqdnTemplate == ""
    requires CollectHosts(Build(f), cfg.flags) == [host, extra]
    requires ResolveGroups(Build(f).meta.annotations, Build(f).loadBalancer) == TargetGroups([ip], [], [])
    requires Ttl(f.annotations) == None && !Alias(f.annotations)
    requires PlainValid(host) && PlainValid(extra)
    ensures IngressRecords(cfg, Build(f))
         == [Rec(host, A, [ip], Owner(f.namespace, f.name)), Rec(extra, A, [ip], Owner(f.namespace, f.name))]
  {
    var o := Owner(f.namespace, f.name);
    FormsA2(host, extra, ip, o);
    Own(cfg, f, [host, extra], TargetGroups([ip], [], []), None, false, [Rec(host, A, [ip], o), Rec(extra, A, [ip], o)]);
  }

  /** A hostname annotation naming two hosts adds an A record for each, in its order. */
  lemma HostnamesA(cfg: Config, f: FakeIngress, host: string, e1: string, e2: string, ip: string)
    requires cfg.fqdnTemplate == ""
    requires CollectHosts(Build(f), cfg.flags) == [host, e1, e2]
    requires ResolveGroups(Build(f).meta.annotations, Build(f).loadBalancer) == TargetGroups([ip], [], [])
    requires Ttl(f.annotations) == None && !Alias(f.annotations)
    requires PlainValid(host) && PlainValid(e1) && PlainValid(e2)
    ensures IngressRecords(cfg, Build(f))
         == [Rec(host, A, [ip], Owner(f.namespace, f.name)), Rec(e1, A, [ip], Owner(f.namespace, f.name)),
             Rec(e2, A, [ip], Owner(f.namespace, f.name))]
  {
    var o := Owner(f.namespace, f.name);
    FormsA3(host, e1, e2, ip, o);
    Own(cfg, f, [host, e1, e2], TargetGroups([ip], [], []), None, false,
        [Rec(host, A, [ip], o), Rec(e1, A, [ip], o), Rec(e2, A, [ip], o)]);
  }

  /** One rule host, a hostname annotation naming two more, and one IPv4 entry: those hosts and that target. */
  lemma TwoAnnotatedHostsA(f: FakeIngress, host: string, e1: string, e2: string, ip: string)
    requires f.dnsnames == [host] && f.tlsdnsnames == [] && host != ""
    requires f.annotations == map[HostnameKey := e1 + ", " + e2] && IsTrimmedEntry(e1, ',') && IsTrimmedEntry(e2, ',')
    requires f.ips == [ip] && f.hostnames == [] && Classify(ip) == IPv4
    ensures CollectHosts(Build(f), NoFlags) == [host, e1, e2]
    ensures ResolveGroups(Build(f).meta.annotations, Build(f).loadBalancer) == TargetGroups([ip], [], [])
    ensures Ttl(f.annotations) == None && !Alias(f.annotations)
  {
    TwoAnnotatedHosts(f, NoFlags, host, e1, e2);
    StatusA(f, ip);
  }

  /** Hostname and target annotations: both hosts point at the target by CNAME. */
  lemma HostnameTargetCname(cfg: Config, f: FakeIngress, host: string, extra: string, t: string)
    requires f.dnsnames == [host] && f.tlsdnsnames == []
    requires f.annotations == map[HostnameKey := extra, TargetKey := t]
    requires cfg.fqdnTemplate == "" && cfg.flags == NoFlags
    requires PlainValid(host) && PlainValid(extra) && IsTrimmedEntry(extra, ',')
    requires IsTrimmedEntry(t, ',') && Classify(t) == NotAnAddress
    ensures IngressRecords(cfg, Build(f))
         == [Rec(host, CNAME, [t], Owner(f.namespace, f.name)), Rec(extra, CNAME, [t], Owner(f.namespace, f.name))]
  {
    var g := TargetGroups([], [], [t]);
    var o := Owner(f.namespace, f.name);
    HostnameTargetKeys(extra, t);
    SplitListOne(extra);
    HostnameHosts(f, cfg.flags, host, [extra]);
    Join11(host, extra);
    OverrideName(f, t);
    FormsCname2(host, extra, t, o);
    Own(cfg, f, [host, extra], g, None, false, [Rec(host, CNAME, [t], o), Rec(extra, CNAME, [t], o)]);
  }

  /** One rule host and a target annotation naming a host: one CNAME record with the options given. */
  lemma OverrideCname(cfg: Config, f: FakeIngress, host: string, t: string, ttl: Option<nat>, alias: bool)
    requires f.dnsnames == [host] && f.tlsdnsnames == []
    requires TargetKey in f.annotations && f.annotations[TargetKey] == t && HostnameKey !in f.annotations
    requires Ttl(f.annotations) == ttl && Alias(f.annotations) == alias
    requires cfg.fqdnTemplate == "" && !cfg.flags.ignoreRules
    requires PlainValid(host) && IsTrimmedEntry(t, ',') && Classify(t) == NotAnAddress
    ensures IngressRecords(cfg, Build(f)) == [Full(host, CNAME, [t], ttl, alias, Owner(f.namespace, f.name))]
  {
    var g := TargetGroups([], [], [t]);
    HostsWithoutAnnotation(f, cfg.flags);
    RuleHost(f, cfg.flags, host);
    OverrideName(f, t);
    OneHost(host, g, RecordOptions(ttl, alias, Owner(f.namespace, f.name)));
    Own(cfg, f, [host], g, ttl, alias, [Full(host, CNAME, [t], ttl, alias, Owner(f.namespace, f.name))]);
  }

  /** The target annotation alone, naming a host: one CNAME record, load balancer ignored. */
  lemma TargetCname(cfg: Config, f: FakeIngress, host: string, t: string)
    requires f.dnsnames == [host] && f.tlsdnsnames == [] && f.annotations == map[TargetKey := t]
    requires cfg.fqdnTemplate == "" && !cfg.flags.ignoreRules
    requires PlainValid(host) && IsTrimmedEntry(t, ',') && Classify(t) == NotAnAddress
    ensures IngressRecords(cfg, Build(f)) == [Rec(host, CNAME, [t], Owner(f.namespace, f.name))]
  {
    TargetOnly(t);
    OverrideCname(cfg, f, host, t, None, false);
  }

  /** The target annotation alone, holding an IPv4 address: one A record. */
  lemma TargetA(cfg: Config, f: FakeIngress, host: string, t: string)
    requires f.dnsnames == [host] && f.tlsdnsnames == [] && f.annotations == map[TargetKey := t]
    requires cfg.fqdnTemplate == "" && !cfg.flags.ignoreRules
    requires PlainValid(host) && IsTrimmedEntry(t, ',') && Classify(t) == IPv4
    ensures IngressRecords(cfg, Build(f)) == [Rec(host, A, [t], Owner(f.namespace, f.name))]
  {
    var g := TargetGroups([t], [], []);
    var o := Owner(f.namespace, f.name);
    TargetOnly(t);
    assert CollectHosts(Build(f), cfg.flags) == [host] by {
      HostsWithoutAnnotation(f, cfg.flags);
      RuleHost(f, cfg.flags, host);
    }
    assert ResolveGroups(Build(f).meta.annotations, Build(f).loadBalancer) == g by {
      OverrideIPv4(f, t);
    }
    assert HostsForm([host], g, RecordOptions(None, false, o)) == [Rec(host, A, [t], o)] by {
      OneHost(host, g, RecordOptions(None, false, o));
      FormA(host, t, o);
    }
    Own(cfg, f, [host], g, None, false, [Rec(host, A, [t], o)]);
  }

  /** Target and TTL annotations: the CNAME record carries the parsed TTL. */
  lemma TargetTtlCname(cfg: Config, f: FakeIngress, host: string, t: string, value: string, n: nat)
    requires f.dnsnames == [host] && f.tlsdnsnames == [] && f.annotations == map[TargetKey := t, TtlKey := value]
    requires ParseTtl(value) == Some(n)
    requires cfg.fqdnTemplate == "" && !cfg.flags.ignoreRules
    requires PlainValid(host) && IsTrimmedEntry(t, ',') && Classify(t) == NotAnAddress
    ensures IngressRecords(cfg, Build(f))
         == [Endpoint(host, CNAME, [t], Some(n), [], ResourceLabels(Owner(f.namespace, f.name)))]
  {
    KeyLengths();
    OverrideCname(cfg, f, host, t, Some(n), false);
  }

  /** Target and alias annotations: the CNAME record carries the alias property exactly when the value reads as true. */
  lemma TargetAliasCname(cfg: Config, f: FakeIngress, host: string, t: string, value: string, alias: bool)
    requires f.dnsnames == [host] && f.tlsdnsnames == [] && f.annotations == map[TargetKey := t, AliasKey := value]
    requires ParseBool(value) == Some(alias)
    requires cfg.fqdnTemplate == "" && !cfg.flags.ignoreRules
    requires PlainValid(host) && IsTrimmedEntry(t, ',') && Classify(t) == NotAnAddress
    ensures IngressRecords(cfg, Build(f)) == [Full(host, CNAME, [t], None, alias, Owner(f.namespace, f.name))]
  {
    KeyLengths();
    OverrideCname(cfg, f, host, t, None, alias);
  }

  // ---- templated records

  /** An ingress with no host that is read has no own records. */
  lemma NoOwn(f: FakeIngress, flags: Flags)
    requires f.dnsnames == [] && f.tlsdnsnames == [] && HostnameKey !in f.annotations
    ensures EndpointsFromIngress(Build(f), flags) == []
  {
    HostsWithoutAnnotation(f, flags);
    NoDefinedHosts(f, flags);
  }

  /** Templated records from the template's names, the groups and the options. */
  lemma Templ(template: string, f: FakeIngress, names: seq<string>, g: TargetGroups, expected: seq<Endpoint>)
    requires ExecTemplate(template, f.name) == names
    requires ResolveGroups(Build(f).meta.annotations, Build(f).loadBalancer) == g
    requires Ttl(f.annotations) == None && !Alias(f.annotations)
    requires forall h :: h in names ==> PlainValid(h)
    requires HostsForm(names, g, RecordOptions(None, false, Owner(f.namespace, f.name))) == expected
    ensures TemplateEndpoints(template, Build(f)) == expected
  {
    OptionsOfFake(f, None, false);
    AssembleTemplated(template, Build(f), names, g, RecordOptions(None, false, Owner(f.namespace, f.name)), expected);
  }

  /** One template name over an IPv4 and a host-name target: an A and a CNAME record for that name. */
  lemma TemplatedACname(template: string, f: FakeIngress, name: string, ip: string, lb: string)
    requires ExecTemplate(template, f.name) == [name]
    requires ResolveGroups(Build(f).meta.annotations, Build(f).loadBalancer) == TargetGroups([ip], [], [lb])
    requires Ttl(f.annotations) == None && !Alias(f.annotations)
    requires PlainValid(name)
    ensures TemplateEndpoints(template, Build(f))
         == [Rec(name, A, [ip], Owner(f.namespace, f.name)), Rec(name, CNAME, [lb], Owner(f.namespace, f.name))]
  {
    var g := TargetGroups([ip], [], [lb]);
    var o := Owner(f.namespace, f.name);
    OneHost(name, g, RecordOptions(None, false, o));
    FormACname(name, ip, lb, o);
    Templ(template, f, [name], g, [Rec(name, A, [ip], o), Rec(name, CNAME, [lb], o)]);
  }

  /** No host, an IPv4 and a host-name entry, one template name: an A and a CNAME record for that name. */
  lemma TemplateACname(cfg: Config, f: FakeIngress, suffix: string, name: string, ip: string, lb: string)
    requires cfg.fqdnTemplate == NameAction + suffix && IsNameEntry(suffix) && !cfg.combineFQDNAndAnnotation
    requires f.dnsnames == [] && f.tlsdnsnames == [] && f.ips == [ip] && f.hostnames == [lb]
    requires NoRecordKeys(f.annotations)
    requires name == f.name + suffix && PlainValid(name) && Classify(ip) == IPv4 && lb != ""
    ensures IngressRecords(cfg, Build(f))
         == [Rec(name, A, [ip], Owner(f.namespace, f.name)), Rec(name, CNAME, [lb], Owner(f.namespace, f.name))]
  {
    NoRecordKeysFacts(f.annotations);
    NoOwn(f, cfg.flags);
    SingleNameTemplate(cfg.fqdnTemplate, f.name, suffix);
    StatusACname(f, ip, lb);
    TemplatedACname(cfg.fqdnTemplate, f, name, ip, lb);
    TemplateWhenNoOwn(cfg, Build(f));
  }

  /** Two template names over one IPv4 target: an A record for each name. */
  lemma TemplatedTwoA(template: string, f: FakeIngress, n1: string, n2: string, ip: string)
    requires ExecTemplate(template, f.name) == [n1, n2]
    requires ResolveGroups(Build(f).meta.annotations, Build(f).loadBalancer) == TargetGroups([ip], [], [])
    requires Ttl(f.annotations) == None && !Alias(f.annotations)
    requires PlainValid(n1) && PlainValid(n2)
    ensures TemplateEndpoints(template, Build(f))
         == [Rec(n1, A, [ip], Owner(f.namespace, f.name)), Rec(n2, A, [ip], Owner(f.namespace, f.name))]
  {
    var o := Owner(f.namespace, f.name);
    FormsA2(n1, n2, ip, o);
    Templ(template, f, [n1, n2], TargetGroups([ip], [], []), [Rec(n1, A, [ip], o), Rec(n2, A, [ip], o)]);
  }

  /** No host, one IPv4 entry, two template names: an A record for each name, combined or not. */
  lemma TemplateTwoA(cfg: Config, f: FakeIngress, s1: string, s2: string, n1: string, n2: string, ip: string)
    requires cfg.fqdnTemplate == NameAction + s1 + ", " + NameAction + s2 && IsNameEntry(s1) && IsNameEntry(s2)
    requires f.dnsnames == [] && f.tlsdnsnames == [] && f.ips == [ip] && f.hostnames == []
    requires NoRecordKeys(f.annotations)
    requires n1 == f.name + s1 && n2 == f.name + s2 && PlainValid(n1) && PlainValid(n2) && Classify(ip) == IPv4
    ensures IngressRecords(cfg, Build(f))
         == [Rec(n1, A, [ip], Owner(f.namespace, f.name)), Rec(n2, A, [ip], Owner(f.namespace, f.name))]
  {
    NoRecordKeysFacts(f.annotations);
    NoOwn(f, cfg.flags);
    TwoNameTemplate(cfg.fqdnTemplate, f.name, s1, s2);
    StatusA(f, ip);
    TemplatedTwoA(cfg.fqdnTemplate, f, n1, n2, ip);
    TemplateWhenNoOwn(cfg, Build(f));
  }

  /** Two template names over a target annotation naming a host: a CNAME record for each name. */
  lemma TemplatedTwoCname(template: string, f: FakeIngress, s1: string, s2: string, n1: string, n2: string, t: string)
    requires template == NameAction + s1 + ", " + NameAction + s2 && IsNameEntry(s1) && IsNameEntry(s2)
    requires f.annotations == map[TargetKey := t]
    requires n1 == f.name + s1 && n2 == f.name + s2 && PlainValid(n1) && PlainValid(n2)
    requires IsTrimmedEntry(t, ',') && Classify(t) == NotAnAddress
    ensures TemplateEndpoints(template, Build(f))
         == [Rec(n1, CNAME, [t], Owner(f.namespace, f.name)), Rec(n2, CNAME, [t], Owner(f.namespace, f.name))]
  {
    var g := TargetGroups([], [], [t]);
    var o := Owner(f.namespace, f.name);
    TargetOnly(t);
    OverrideName(f, t);
    TwoNameTemplate(template, f.name, s1, s2);
    FormsCname2(n1, n2, t, o);
    Templ(template, f, [n1, n2], g, [Rec(n1, CNAME, [t], o), Rec(n2, CNAME, [t], o)]);
  }

  /** Combining: the own CNAME record to the target, then one for each of two template names. */
  lemma CombinedTargetCname(cfg: Config, f: FakeIngress, s1: string, s2: string, n1: string, n2: string,
                            host: string, t: string)
    requires cfg.fqdnTemplate == NameAction + s1 + ", " + NameAction + s2 && IsNameEntry(s1) && IsNameEntry(s2)
    requires cfg.combineFQDNAndAnnotation && !cfg.flags.ignoreRules
    requires f.dnsnames == [host] && f.tlsdnsnames == [] && f.annotations == map[TargetKey := t]
    requires n1 == f.name + s1 && n2 == f.name + s2 && PlainValid(n1) && PlainValid(n2) && PlainValid(host)
    requires IsTrimmedEntry(t, ',') && Classify(t) == NotAnAddress
    ensures IngressRecords(cfg, Build(f))
         == [Rec(host, CNAME, [t], Owner(f.namespace, f.name)), Rec(n1, CNAME, [t], Owner(f.namespace, f.name)),
             Rec(n2, CNAME, [t], Owner(f.namespace, f.name))]
  {
    var o := Owner(f.namespace, f.name);
    TargetCname(cfg.(fqdnTemplate := ""), f, host, t);
    TemplatedTwoCname(cfg.fqdnTemplate, f, s1, s2, n1, n2, t);
    CombinedRecords(cfg, Build(f));
    Join12(Rec(host, CNAME, [t], o), Rec(n1, CNAME, [t], o), Rec(n2, CNAME, [t], o));
  }

  /** No host and a target annotation naming a host: one CNAME record for the template name. */
  lemma TemplateTargetCname(cfg: Config, f: FakeIngress, suffix: string, name: string, t: string)
    requires cfg.fqdnTemplate == NameAction + suffix && IsNameEntry(suffix) && !cfg.combineFQDNAndAnnotation
    requires f.dnsnames == [] && f.tlsdnsnames == [] && f.annotations == map[TargetKey := t]
    requires name == f.name + suffix && PlainValid(name) && IsTrimmedEntry(t, ',') && Classify(t) == NotAnAddress
    ensures IngressRecords(cfg, Build(f)) == [Rec(name, CNAME, [t], Owner(f.namespace, f.name))]
  {
    var g := TargetGroups([], [], [t]);
    var o := Owner(f.namespace, f.name);
    var expected := [Rec(name, CNAME, [t], o)];
    TargetOnly(t);
    assert EndpointsFromIngress(Build(f), cfg.flags) == [] by {
      NoOwn(f, cfg.flags);
    }
    assert TemplateEndpoints(cfg.fqdnTemplate, Build(f)) == expected by {
      assert ExecTemplate(cfg.fqdnTemplate, f.name) == [name] by {
        SingleNameTemplate(cfg.fqdnTemplate, f.name, suffix);
      }
      assert ResolveGroups(Build(f).meta.annotations, Build(f).loadBalancer) == g by {
        OverrideName(f, t);
      }
      assert HostsForm([name], g, RecordOptions(None, false, o)) == expected by {
        OneHost(name, g, RecordOptions(None, false, o));
        FormCname(name, t, o);
      }
      Templ(cfg.fqdnTemplate, f, [name], g, expected);
    }
    TemplateWhenNoOwn(cfg, Build(f));
  }

  /** No host and a target annotation holding an IPv4 address: one A record for the template name. */
  lemma TemplateTargetA(cfg: Config, f: FakeIngress, suffix: string, name: string, t: string)
    requires cfg.fqdnTemplate == NameAction + suffix && IsNameEntry(suffix) && !cfg.combineFQDNAndAnnotation
    requires f.dnsnames == [] && f.tlsdnsnames == [] && f.annotations == map[TargetKey := t]
    requires name == f.name + suffix && PlainValid(name) && IsTrimmedEntry(t, ',') && Classify(t) == IPv4
    ensures IngressRecords(cfg, Build(f)) == [Rec(name, A, [t], Owner(f.namespace, f.name))]
  {
    var g := TargetGroups([t], [], []);
    var o := Owner(f.namespace, f.name);
    var expected := [Rec(name, A, [t], o)];
    TargetOnly(t);
    assert EndpointsFromIngress(Build(f), cfg.flags) == [] by {
      NoOwn(f, cfg.flags);
    }
    assert TemplateEndpoints(cfg.fqdnTemplate, Build(f)) == expected by {
      assert ExecTemplate(cfg.fqdnTemplate, f.name) == [name] by {
        SingleNameTemplate(cfg.fqdnTemplate, f.name, suffix);
      }
      assert ResolveGroups(Build(f).meta.annotations, Build(f).loadBalancer) == g by {
        OverrideIPv4(f, t);
      }
      assert HostsForm([name], g, RecordOptions(None, false, o)) == expected by {
        OneHost(name, g, RecordOptions(None, false, o));
        FormA(name, t, o);
      }
      Templ(cfg.fqdnTemplate, f, [name], g, expected);
    }
    TemplateWhenNoOwn(cfg, Build(f));
  }

  /** A target annotation with no entries: no record, template or not. */
  lemma EmptyTarget(cfg: Config, f: FakeIngress)
    requires f.annotations == map[TargetKey := ""]
    ensures IngressRecords(cfg, Build(f)) == []
  {
    assert SplitList("", ',') == [] by {
      assert Split("", ',') == [""];
    }
    OverrideGroupsOfFake(f, []);
    NoTargetsNoIngressRecords(cfg, Build(f));
  }
}
