/**
 * Shared ground for the table lemmas: the record forms the test tables write,
 * and the evaluation steps for an ingress built from a `fakeIngress`, each
 * stated once for every such ingress so that a table row only has to supply
 * the facts about its own literals.
 */
module TableSupport {
  import opened Wrappers
  import opened Strings
  import opened Addresses
  import opened Networking
  import opened Endpoint
  import opened Annotations
  import opened Fqdn
  import opened Targets
  import opened Hosts
  import opened IngressEndpoints
  import opened IngressSource
  import opened Labels

  const NoFlags: Flags := Flags(false, false, false)

  /** A record as the tables write it: no TTL, no provider-specific pairs, and the resource label. */
  function Rec(name: string, recordType: RecordType, targets: seq<string>, resource: string): Endpoint
  {
    Endpoint(name, recordType, targets, None, [], ResourceLabels(resource))
  }

  /** A host name the model accepts as it stands: valid, without a trailing dot. */
  predicate PlainValid(host: string)
  {
    ValidDNSName(host) && host[|host| - 1] != '.'
  }

  /** A short name without white space or a dot at its end. */
  lemma ShortPlainName(host: string)
    requires 0 < |host| <= 63 && !IsSpace(host[0]) && !IsSpace(host[|host| - 1]) && host[|host| - 1] != '.'
    ensures PlainValid(host)
  {
    ShortNameIsValid(host);
  }

  /** The host most source rows use is a valid plain name. */
  lemma ExampleOrgValid()
    ensures PlainValid("example.org")
  {
    ShortPlainName("example.org");
  }

  /** The host of the hostname annotation in the source rows is a valid plain name. */
  lemma DnsThroughHostnameValid()
    ensures PlainValid("dns-through-hostname.com")
  {
    ShortPlainName("dns-through-hostname.com");
  }

  /** The rule host most endpoint rows use is a valid plain name. */
  lemma FooBarValid()
    ensures PlainValid("foo.bar")
  {
    ShortPlainName("foo.bar");
  }

  /** The records of one such host, written out group by group. */
  function HostForm(host: string, g: TargetGroups, opts: RecordOptions): seq<Endpoint>
  {
    (if g.ipv4 == [] then [] else [Endpoint(host, A, g.ipv4, opts.ttl, [], ResourceLabels(opts.resource))])
    + (if g.ipv6 == [] then [] else [Endpoint(host, AAAA, g.ipv6, opts.ttl, [], ResourceLabels(opts.resource))])
    + (if g.hostnames == [] then []
       else [Endpoint(host, CNAME, g.hostnames, opts.ttl, if opts.alias then [AliasProperty] else [],
                      ResourceLabels(opts.resource))])
  }

  function HostsForm(hosts: seq<string>, g: TargetGroups, opts: RecordOptions): seq<Endpoint>
  {
    if |hosts| == 0 then [] else HostForm(hosts[0], g, opts) + HostsForm(hosts[1..], g, opts)
  }

  lemma OneHost(host: string, g: TargetGroups, opts: RecordOptions)
    ensures HostsForm([host], g, opts) == HostForm(host, g, opts)
  {
    assert [host][1..] == [];
  }

  /** The form of one host for a lone IPv4 target: one A record. */
  lemma FormA(host: string, ip: string, resource: string)
    ensures HostForm(host, TargetGroups([ip], [], []), RecordOptions(None, false, resource)) == [Rec(host, A, [ip], resource)]
  {
  }

  lemma FormAaaa(host: string, ip: string, resource: string)
    ensures HostForm(host, TargetGroups([], [ip], []), RecordOptions(None, false, resource)) == [Rec(host, AAAA, [ip], resource)]
  {
  }

  lemma FormCname(host: string, t: string, resource: string)
    ensures HostForm(host, TargetGroups([], [], [t]), RecordOptions(None, false, resource)) == [Rec(host, CNAME, [t], resource)]
  {
  }

  /** The form of one host with all three groups filled: an A, an AAAA and a CNAME record. */
  lemma FormAll(host: string, v4: seq<string>, v6: seq<string>, names: seq<string>, resource: string)
    requires v4 != [] && v6 != [] && names != []
    ensures HostForm(host, TargetGroups(v4, v6, names), RecordOptions(None, false, resource))
         == [Rec(host, A, v4, resource), Rec(host, AAAA, v6, resource), Rec(host, CNAME, names, resource)]
  {
    Join111(Rec(host, A, v4, resource), Rec(host, AAAA, v6, resource), Rec(host, CNAME, names, resource));
  }

  /** The form of one host for an IPv4 and a host-name target: an A record, then a CNAME record. */
  lemma FormACname(host: string, ip: string, t: string, resource: string)
    ensures HostForm(host, TargetGroups([ip], [], [t]), RecordOptions(None, false, resource))
         == [Rec(host, A, [ip], resource), Rec(host, CNAME, [t], resource)]
  {
    var a, c := Rec(host, A, [ip], resource), Rec(host, CNAME, [t], resource);
    assert [a] + [] + [c] == [a, c];
  }

  lemma FormsA2(h1: string, h2: string, ip: string, o: string)
    ensures HostsForm([h1, h2], TargetGroups([ip], [], []), RecordOptions(None, false, o))
         == [Rec(h1, A, [ip], o), Rec(h2, A, [ip], o)]
  {
    HostsFormTwo(h1, h2, TargetGroups([ip], [], []), RecordOptions(None, false, o));
    FormA(h1, ip, o);
    FormA(h2, ip, o);
    Join11(Rec(h1, A, [ip], o), Rec(h2, A, [ip], o));
  }

  lemma FormsA3(h1: string, h2: string, h3: string, ip: string, o: string)
    ensures HostsForm([h1, h2, h3], TargetGroups([ip], [], []), RecordOptions(None, false, o))
         == [Rec(h1, A, [ip], o), Rec(h2, A, [ip], o), Rec(h3, A, [ip], o)]
  {
    HostsFormThree(h1, h2, h3, TargetGroups([ip], [], []), RecordOptions(None, false, o));
    FormA(h1, ip, o);
    FormA(h2, ip, o);
    FormA(h3, ip, o);
    Join111(Rec(h1, A, [ip], o), Rec(h2, A, [ip], o), Rec(h3, A, [ip], o));
  }

  lemma FormsCname2(h1: string, h2: string, t: string, o: string)
    ensures HostsForm([h1, h2], TargetGroups([], [], [t]), RecordOptions(None, false, o))
         == [Rec(h1, CNAME, [t], o), Rec(h2, CNAME, [t], o)]
  {
    HostsFormTwo(h1, h2, TargetGroups([], [], [t]), RecordOptions(None, false, o));
    FormCname(h1, t, o);
    FormCname(h2, t, o);
    Join11(Rec(h1, CNAME, [t], o), Rec(h2, CNAME, [t], o));
  }

  lemma HostsFormTwo(a: string, b: string, g: TargetGroups, opts: RecordOptions)
    ensures HostsForm([a, b], g, opts) == HostForm(a, g, opts) + HostForm(b, g, opts)
  {
    assert [a, b][1..] == [b];
    assert [b][1..] == [];
    assert HostsForm([b], g, opts) == HostForm(b, g, opts) + [];
    assert HostForm(b, g, opts) + [] == HostForm(b, g, opts);
  }
  lemma HostsFormThree(a: string, b: string, c: string, g: TargetGroups, opts: RecordOptions)
    ensures HostsForm([a, b, c], g, opts) == HostForm(a, g, opts) + HostForm(b, g, opts) + HostForm(c, g, opts)
  {
    assert [a, b, c][1..] == [b, c];
    HostsFormTwo(b, c, g, opts);
  }

  lemma HostsFormFour(a: string, b: string, c: string, d: string, g: TargetGroups, opts: RecordOptions)
    ensures HostsForm([a, b, c, d], g, opts)
         == HostForm(a, g, opts) + HostForm(b, g, opts) + HostForm(c, g, opts) + HostForm(d, g, opts)
  {
    assert [a, b, c, d][1..] == [b, c, d];
    HostsFormThree(b, c, d, g, opts);
  }


  lemma HostRecords(host: string, g: TargetGroups, opts: RecordOptions)
    requires PlainValid(host)
    ensures EndpointsForHostname(host, g, opts) == HostForm(host, g, opts)
  {
    assert TrimSuffix(host, '.') == host;
  }

  lemma {:induction false} HostsRecords(hosts: seq<string>, g: TargetGroups, opts: RecordOptions)
    requires forall h :: h in hosts ==> PlainValid(h)
    ensures EndpointsForHosts(hosts, g, opts) == HostsForm(hosts, g, opts)
    decreases |hosts|
  {
    if |hosts| > 0 {
      assert hosts[0] in hosts;
      assert forall h :: h in hosts[1..] ==> h in hosts;
      HostRecords(hosts[0], g, opts);
      HostsRecords(hosts[1..], g, opts);
    }
  }

  /** The annotation keys differ in length, hence from each other. */
  lemma KeyLengths()
    ensures |HostnameKey| == 41 && |TargetKey| == 39 && |TtlKey| == 36 && |AliasKey| == 38
    ensures |ControllerKey| == 43 && |HostnameSourceKey| == 56 && |IngressClassKey| == 27
  {
  }

  /** The hosts the rules and TLS blocks of a `fakeIngress` define, under the switches. */
  function Defined(f: FakeIngress, flags: Flags): seq<string>
  {
    (if flags.ignoreRules then [] else BlockHosts(f.dnsnames))
    + (if flags.ignoreTLS then [] else TlsHosts(TlsFor(f.tlsdnsnames)))
  }

  lemma DefinedOfBuild(f: FakeIngress, flags: Flags)
    ensures DefinedHosts(Build(f).spec, flags) == Defined(f, flags)
  {
    RuleHostsOfBuild(f.dnsnames);
  }

  /** Without a hostname annotation that is read, the candidates are the defined hosts. */
  lemma HostsWithoutAnnotation(f: FakeIngress, flags: Flags)
    requires HostnameKey !in f.annotations || flags.ignoreHostnameAnnotation
    ensures CollectHosts(Build(f), flags) == Defined(f, flags)
  {
    DefinedOfBuild(f, flags);
  }

  /** A read hostname annotation in the default mode adds its hosts after the defined ones. */
  lemma HostsWithAnnotation(f: FakeIngress, flags: Flags, listed: seq<string>)
    requires HostnameKey in f.annotations && !flags.ignoreHostnameAnnotation
    requires HostnameSourceKey !in f.annotations
    requires SplitList(f.annotations[HostnameKey], ',') == listed
    ensures CollectHosts(Build(f), flags) == Defined(f, flags) + listed
  {
    DefinedOfBuild(f, flags);
  }

  /** Without a target annotation the groups are those of the load balancer's entries. */
  lemma StatusGroupsOfFake(f: FakeIngress)
    requires TargetKey !in f.annotations
    ensures ResolveGroups(Build(f).meta.annotations, Build(f).loadBalancer)
         == TargetGroups(Select(f.ips, IPv4), Select(f.ips, IPv6), NonEmpty(f.hostnames))
  {
    StatusGroupsOfBuild(f);
  }

  /** With a target annotation the groups are its entries, by family. */
  lemma OverrideGroupsOfFake(f: FakeIngress, targets: seq<string>)
    requires TargetKey in f.annotations
    requires SplitList(f.annotations[TargetKey], ',') == targets
    ensures ResolveGroups(Build(f).meta.annotations, Build(f).loadBalancer) == OverrideGroups(targets)
  {
  }

  /** The resource label value of the ingress `name` in `namespace`. */
  function Owner(namespace: string, name: string): string
  {
    "ingress/" + namespace + "/" + name
  }

  lemma OptionsOfFake(f: FakeIngress, ttl: Option<nat>, alias: bool)
    requires Ttl(f.annotations) == ttl && Alias(f.annotations) == alias
    ensures OptionsOf(Build(f)) == RecordOptions(ttl, alias, Owner(f.namespace, f.name))
  {
  }

  /** No annotation that changes the record set: no hostname, target, TTL or alias annotation. */
  predicate NoRecordKeys(annotations: map<string, string>)
  {
    HostnameKey !in annotations && TargetKey !in annotations && TtlKey !in annotations && AliasKey !in annotations
  }

  /** An ingress's share of `Endpoints`: its records if it passes the gates, else none. */
  function Contribution(cfg: Config, ing: Ingress): seq<Endpoint>
  {
    if Admitted(cfg, ing) then IngressRecords(cfg, ing) else []
  }

  /** A configuration without namespace, filter, label or class restriction. */
  predicate OpenGates(cfg: Config)
  {
    cfg.namespace == "" && cfg.annotationFilter == NoFilter && cfg.labelSelector == [] && cfg.ingressClassNames == []
  }

  lemma OpenContribution(cfg: Config, ing: Ingress, records: seq<Endpoint>)
    requires OpenGates(cfg) && ControlledByUs(ing.meta.annotations)
    requires IngressRecords(cfg, ing) == records
    ensures Contribution(cfg, ing) == records
  {
    assert Matches([], ing.meta.labels);
  }

  lemma Admit(cfg: Config, ing: Ingress, records: seq<Endpoint>)
    requires Admitted(cfg, ing) && IngressRecords(cfg, ing) == records
    ensures Contribution(cfg, ing) == records
  {
  }

  lemma Exclude(cfg: Config, ing: Ingress)
    requires !Admitted(cfg, ing)
    ensures Contribution(cfg, ing) == []
  {
  }

  lemma EndpointsOne(cfg: Config, a: Ingress, ra: seq<Endpoint>)
    requires !cfg.annotationFilter.Unparsable?
    requires Contribution(cfg, a) == ra
    ensures Endpoints(cfg, [a]) == Success(ra)
  {
    CollectCons(cfg, a, []);
    assert [a] + [] == [a];
    assert ra + [] == ra;
  }

  lemma EndpointsTwo(cfg: Config, a: Ingress, b: Ingress, ra: seq<Endpoint>, rb: seq<Endpoint>)
    requires !cfg.annotationFilter.Unparsable?
    requires Contribution(cfg, a) == ra && Contribution(cfg, b) == rb
    ensures Endpoints(cfg, [a, b]) == Success(ra + rb)
  {
    CollectCons(cfg, a, [b]);
    assert [a] + [b] == [a, b];
    EndpointsOne(cfg, b, rb);
  }

  /** One more ingress at the end of the list adds its share at the end of the records. */
  lemma EndpointsSnoc(cfg: Config, xs: seq<Ingress>, x: Ingress, rxs: seq<Endpoint>, rx: seq<Endpoint>)
    requires Endpoints(cfg, xs) == Success(rxs) && Contribution(cfg, x) == rx
    ensures Endpoints(cfg, xs + [x]) == Success(rxs + rx)
  {
    assert Collect(cfg, [x]) == rx by {
      CollectCons(cfg, x, []);
      assert [x] + [] == [x];
      assert rx + [] == rx;
    }
    CollectAppend(cfg, xs, [x]);
  }

  lemma EndpointsThree(cfg: Config, a: Ingress, b: Ingress, c: Ingress,
      ra: seq<Endpoint>, rb: seq<Endpoint>, rc: seq<Endpoint>)
    requires !cfg.annotationFilter.Unparsable?
    requires Contribution(cfg, a) == ra && Contribution(cfg, b) == rb && Contribution(cfg, c) == rc
    ensures Endpoints(cfg, [a, b, c]) == Success(ra + rb + rc)
  {
    EndpointsTwo(cfg, a, b, ra, rb);
    EndpointsSnoc(cfg, [a, b], c, ra + rb, rc);
    assert [a, b] + [c] == [a, b, c];
  }

  lemma EndpointsFour(cfg: Config, a: Ingress, b: Ingress, c: Ingress, d: Ingress,
      ra: seq<Endpoint>, rb: seq<Endpoint>, rc: seq<Endpoint>, rd: seq<Endpoint>)
    requires !cfg.annotationFilter.Unparsable?
    requires Contribution(cfg, a) == ra && Contribution(cfg, b) == rb && Contribution(cfg, c) == rc
    requires Contribution(cfg, d) == rd
    ensures Endpoints(cfg, [a, b, c, d]) == Success(ra + rb + rc + rd)
  {
    EndpointsThree(cfg, a, b, c, ra, rb, rc);
    EndpointsSnoc(cfg, [a, b, c], d, ra + rb + rc, rd);
    assert [a, b, c] + [d] == [a, b, c, d];
  }

  lemma EndpointsFive(cfg: Config, a: Ingress, b: Ingress, c: Ingress, d: Ingress, e: Ingress,
      ra: seq<Endpoint>, rb: seq<Endpoint>, rc: seq<Endpoint>, rd: seq<Endpoint>, re: seq<Endpoint>)
    requires !cfg.annotationFilter.Unparsable?
    requires Contribution(cfg, a) == ra && Contribution(cfg, b) == rb && Contribution(cfg, c) == rc
    requires Contribution(cfg, d) == rd && Contribution(cfg, e) == re
    ensures Endpoints(cfg, [a, b, c, d, e]) == Success(ra + rb + rc + rd + re)
  {
    EndpointsFour(cfg, a, b, c, d, ra, rb, rc, rd);
    EndpointsSnoc(cfg, [a, b, c, d], e, ra + rb + rc + rd, re);
    assert [a, b, c, d] + [e] == [a, b, c, d, e];
  }

  lemma EndpointsSix(cfg: Config, a: Ingress, b: Ingress, c: Ingress, d: Ingress, e: Ingress, f: Ingress,
      ra: seq<Endpoint>, rb: seq<Endpoint>, rc: seq<Endpoint>, rd: seq<Endpoint>, re: seq<Endpoint>, rf: seq<Endpoint>)
    requires !cfg.annotationFilter.Unparsable?
    requires Contribution(cfg, a) == ra && Contribution(cfg, b) == rb && Contribution(cfg, c) == rc
    requires Contribution(cfg, d) == rd && Contribution(cfg, e) == re && Contribution(cfg, f) == rf
    ensures Endpoints(cfg, [a, b, c, d, e, f]) == Success(ra + rb + rc + rd + re + rf)
  {
    EndpointsFive(cfg, a, b, c, d, e, ra, rb, rc, rd, re);
    EndpointsSnoc(cfg, [a, b, c, d, e], f, ra + rb + rc + rd + re, rf);
    assert [a, b, c, d, e] + [f] == [a, b, c, d, e, f];
  }

  lemma EndpointsSeven(cfg: Config, a: Ingress, b: Ingress, c: Ingress, d: Ingress, e: Ingress, f: Ingress, g: Ingress,
      ra: seq<Endpoint>, rb: seq<Endpoint>, rc: seq<Endpoint>, rd: seq<Endpoint>, re: seq<Endpoint>, rf: seq<Endpoint>, rg: seq<Endpoint>)
    requires !cfg.annotationFilter.Unparsable?
    requires Contribution(cfg, a) == ra && Contribution(cfg, b) == rb && Contribution(cfg, c) == rc
    requires Contribution(cfg, d) == rd && Contribution(cfg, e) == re && Contribution(cfg, f) == rf
    requires Contribution(cfg, g) == rg
    ensures Endpoints(cfg, [a, b, c, d, e, f, g]) == Success(ra + rb + rc + rd + re + rf + rg)
  {
    EndpointsSix(cfg, a, b, c, d, e, f, ra, rb, rc, rd, re, rf);
    EndpointsSnoc(cfg, [a, b, c, d, e, f], g, ra + rb + rc + rd + re + rf, rg);
    assert [a, b, c, d, e, f] + [g] == [a, b, c, d, e, f, g];
  }

  lemma EndpointsEight(cfg: Config, a: Ingress, b: Ingress, c: Ingress, d: Ingress, e: Ingress, f: Ingress, g: Ingress, h: Ingress,
      ra: seq<Endpoint>, rb: seq<Endpoint>, rc: seq<Endpoint>, rd: seq<Endpoint>, re: seq<Endpoint>, rf: seq<Endpoint>, rg: seq<Endpoint>, rh: seq<Endpoint>)
    requires !cfg.annotationFilter.Unparsable?
    requires Contribution(cfg, a) == ra && Contribution(cfg, b) == rb && Contribution(cfg, c) == rc
    requires Contribution(cfg, d) == rd && Contribution(cfg, e) == re && Contribution(cfg, f) == rf
    requires Contribution(cfg, g) == rg && Contribution(cfg, h) == rh
    ensures Endpoints(cfg, [a, b, c, d, e, f, g, h]) == Success(ra + rb + rc + rd + re + rf + rg + rh)
  {
    EndpointsSeven(cfg, a, b, c, d, e, f, g, ra, rb, rc, rd, re, rf, rg);
    EndpointsSnoc(cfg, [a, b, c, d, e, f, g], h, ra + rb + rc + rd + re + rf + rg, rh);
    assert [a, b, c, d, e, f, g] + [h] == [a, b, c, d, e, f, g, h];
  }

  lemma EndpointsNine(cfg: Config, a: Ingress, b: Ingress, c: Ingress, d: Ingress, e: Ingress, f: Ingress, g: Ingress, h: Ingress, i: Ingress,
      ra: seq<Endpoint>, rb: seq<Endpoint>, rc: seq<Endpoint>, rd: seq<Endpoint>, re: seq<Endpoint>, rf: seq<Endpoint>, rg: seq<Endpoint>, rh: seq<Endpoint>, ri: seq<Endpoint>)
    requires !cfg.annotationFilter.Unparsable?
    requires Contribution(cfg, a) == ra && Contribution(cfg, b) == rb && Contribution(cfg, c) == rc
    requires Contribution(cfg, d) == rd && Contribution(cfg, e) == re && Contribution(cfg, f) == rf
    requires Contribution(cfg, g) == rg && Contribution(cfg, h) == rh && Contribution(cfg, i) == ri
    ensures Endpoints(cfg, [a, b, c, d, e, f, g, h, i]) == Success(ra + rb + rc + rd + re + rf + rg + rh + ri)
  {
    EndpointsEight(cfg, a, b, c, d, e, f, g, h, ra, rb, rc, rd, re, rf, rg, rh);
    EndpointsSnoc(cfg, [a, b, c, d, e, f, g, h], i, ra + rb + rc + rd + re + rf + rg + rh, ri);
    assert [a, b, c, d, e, f, g, h] + [i] == [a, b, c, d, e, f, g, h, i];
  }

  /** An ingress's own records from the facts a row establishes about it. */
  lemma Assemble(ing: Ingress, flags: Flags, hosts: seq<string>, g: TargetGroups, opts: RecordOptions,
                 expected: seq<Endpoint>)
    requires CollectHosts(ing, flags) == hosts
    requires ResolveGroups(ing.meta.annotations, ing.loadBalancer) == g
    requires OptionsOf(ing) == opts
    requires forall h :: h in hosts ==> PlainValid(h)
    requires HostsForm(hosts, g, opts) == expected
    ensures EndpointsFromIngress(ing, flags) == expected
  {
    HostsRecords(hosts, g, opts);
  }

  /** With a template and no own records, the records of an ingress are the templated ones, combined or not. */
  lemma TemplateWhenNoOwn(cfg: Config, ing: Ingress)
    requires cfg.fqdnTemplate != "" && EndpointsFromIngress(ing, cfg.flags) == []
    ensures IngressRecords(cfg, ing) == TemplateEndpoints(cfg.fqdnTemplate, ing)
  {
    assert [] + TemplateEndpoints(cfg.fqdnTemplate, ing) == TemplateEndpoints(cfg.fqdnTemplate, ing);
  }

  /** Without a template, the records of an ingress are its own. */
  lemma AssembleOwn(cfg: Config, ing: Ingress, hosts: seq<string>, g: TargetGroups, opts: RecordOptions,
                    expected: seq<Endpoint>)
    requires cfg.fqdnTemplate == ""
    requires CollectHosts(ing, cfg.flags) == hosts
    requires ResolveGroups(ing.meta.annotations, ing.loadBalancer) == g
    requires OptionsOf(ing) == opts
    requires forall h :: h in hosts ==> PlainValid(h)
    requires HostsForm(hosts, g, opts) == expected
    ensures IngressRecords(cfg, ing) == expected
  {
    Assemble(ing, cfg.flags, hosts, g, opts, expected);
  }

  /** An ingress's templated records from the names the template gives it. */
  lemma AssembleTemplated(template: string, ing: Ingress, names: seq<string>, g: TargetGroups, opts: RecordOptions,
                          expected: seq<Endpoint>)
    requires ExecTemplate(template, ing.meta.name) == names
    requires ResolveGroups(ing.meta.annotations, ing.loadBalancer) == g
    requires OptionsOf(ing) == opts
    requires forall h :: h in names ==> PlainValid(h)
    requires HostsForm(names, g, opts) == expected
    ensures TemplateEndpoints(template, ing) == expected
  {
    HostsRecords(names, g, opts);
  }

  /** The records of a list are those of its first ingress, if admitted, then those of the rest. */
  lemma CollectCons(cfg: Config, ing: Ingress, rest: seq<Ingress>)
    ensures Collect(cfg, [ing] + rest) == Contribution(cfg, ing) + Collect(cfg, rest)
  {
    assert ([ing] + rest)[1..] == rest;
  }

  lemma Address8888()
    ensures Classify("8.8.8.8") == IPv4
  {
    IPv4Literal("8.8.8.8", "8", "8", "8", "8");
  }

  lemma Address127001()
    ensures Classify("127.0.0.1") == IPv4
  {
    IPv4Literal("127.0.0.1", "127", "0", "0", "1");
  }

  lemma Address1111v6()
    ensures Classify("2606:4700:4700::1111") == IPv6
  {
    IPv6Literal("2606:4700:4700::1111", ["2606", "4700", "4700", "", "1111"]);
  }

  lemma Address1001v6()
    ensures Classify("2606:4700:4700::1001") == IPv6
  {
    IPv6Literal("2606:4700:4700::1001", ["2606", "4700", "4700", "", "1001"]);
  }

  lemma Address1234()
    ensures Classify("1.2.3.4") == IPv4
  {
    IPv4Literal("1.2.3.4", "1", "2", "3", "4");
  }

  lemma Address3456()
    ensures Classify("3.4.5.6") == IPv4
  {
    IPv4Literal("3.4.5.6", "3", "4", "5", "6");
  }

  lemma Address4567()
    ensures Classify("4.5.6.7") == IPv4
  {
    IPv4Literal("4.5.6.7", "4", "5", "6", "7");
  }

  lemma Address6789()
    ensures Classify("6.7.8.9") == IPv4
  {
    IPv4Literal("6.7.8.9", "6", "7", "8", "9");
  }

  lemma Address7890()
    ensures Classify("7.8.9.0") == IPv4
  {
    IPv4Literal("7.8.9.0", "7", "8", "9", "0");
  }

  lemma Address2001v6()
    ensures Classify("2001:DB8::1") == IPv6
  {
    IPv6Literal("2001:DB8::1", ["2001", "DB8", "", "1"]);
  }

  /** The target host name of the annotation rows is a name, not an address. */
  lemma IngressTargetName()
    ensures IsTrimmedEntry("ingress-target.com", ',') && Classify("ingress-target.com") == NotAnAddress
  {
    assert Classify("ingress-target.com") == NotAnAddress by {
      NameIsNotAnAddress("ingress-target.com", 'i');
    }
    assert IsTrimmedEntry("ingress-target.com", ',') by {
      TrimmedTarget();
    }
  }

  lemma TrimmedTarget()
    ensures IsTrimmedEntry("ingress-target.com", ',')
  {
  }

  lemma Join10<T>(x: T)
    ensures [x] + [] == [x]
  {
  }

  lemma Join11<T>(x: T, y: T)
    ensures [x] + [y] == [x, y]
  {
  }

  lemma Join111<T>(x: T, y: T, z: T)
    ensures [x] + [y] + [z] == [x, y, z]
  {
  }

  lemma Join12<T>(x: T, y: T, z: T)
    ensures [x] + [y, z] == [x, y, z]
  {
  }

  lemma Join1111<T>(w: T, x: T, y: T, z: T)
    ensures [w] + [x] + [y] + [z] == [w, x, y, z]
  {
  }

  lemma Join22<T>(a: T, b: T, c: T, d: T)
    ensures [a, b] + [c, d] == [a, b, c, d]
    ensures [a, b] + [] == [a, b] && [] + [c, d] == [c, d]
  {
  }

  lemma Join23<T>(x: T, y: T, u: T, v: T, w: T)
    ensures [x, y] + [u, v, w] == [x, y, u, v, w]
  {
  }
}
