/**
 * The rows of the `endpointsFromIngress` tables in source/ingress_test.go,
 * each stated as a lemma about the model: the ingress the row builds, the
 * switches it sets, and exactly the records it expects, in the order the row
 * lists them, each with the ingress's resource label (which the rows leave
 * to a separate check).
 */
module IngressTables {
  import opened Wrappers
  import opened Strings
  import opened Addresses
  import opened Networking
  import opened Endpoint
  import opened Annotations
  import opened Targets
  import opened Hosts
  import opened IngressEndpoints
  import opened TableSupport

  /** A row's ingress with only hosts and load-balancer entries set, in the default namespace and name. */
  function Plain(dnsnames: seq<string>, ips: seq<string>, hostnames: seq<string>): FakeIngress
  {
    FakeIngress(dnsnames, [], ips, hostnames, "", "", map[], map[], "")
  }

  /** The records of a plain ingress, from its hosts and its load-balancer groups. */
  lemma PlainRecords(dnsnames: seq<string>, ips: seq<string>, hostnames: seq<string>, flags: Flags)
    requires forall h :: h in Defined(Plain(dnsnames, ips, hostnames), flags) ==> PlainValid(h)
    ensures EndpointsFromIngress(Build(Plain(dnsnames, ips, hostnames)), flags)
         == HostsForm(Defined(Plain(dnsnames, ips, hostnames), flags),
                      TargetGroups(Select(ips, IPv4), Select(ips, IPv6), NonEmpty(hostnames)),
                      RecordOptions(None, false, "ingress//"))
  {
    var f := Plain(dnsnames, ips, hostnames);
    var g := TargetGroups(Select(ips, IPv4), Select(ips, IPv6), NonEmpty(hostnames));
    var opts := RecordOptions(None, false, "ingress//");
    HostsWithoutAnnotation(f, flags);
    StatusGroupsOfFake(f);
    OptionsOfFake(f, None, false);
    Assemble(Build(f), flags, Defined(f, flags), g, opts, HostsForm(Defined(f, flags), g, opts));
  }

  /** The records of a plain ingress with one valid rule host: that host's records for the groups. */
  lemma PlainOneHost(host: string, ips: seq<string>, hostnames: seq<string>, g: TargetGroups)
    requires PlainValid(host)
    requires TargetGroups(Select(ips, IPv4), Select(ips, IPv6), NonEmpty(hostnames)) == g
    ensures EndpointsFromIngress(Build(Plain([host], ips, hostnames)), NoFlags)
         == HostForm(host, g, RecordOptions(None, false, "ingress//"))
  {
    var opts := RecordOptions(None, false, "ingress//");
    assert Defined(Plain([host], ips, hostnames), NoFlags) == [host];
    assert HostsForm([host], g, opts) == HostForm(host, g, opts) by {
      assert [host][1..] == [];
    }
    PlainRecords([host], ips, hostnames, NoFlags);
  }

  /** One valid rule host and one load-balancer host name: one CNAME record. */
  lemma CnameShape(host: string, lb: string)
    requires PlainValid(host) && lb != ""
    ensures EndpointsFromIngress(Build(Plain([host], [], [lb])), NoFlags) == [Rec(host, CNAME, [lb], "ingress//")]
  {
    NonEmptyOfFilled([lb]);
    PlainOneHost(host, [], [lb], TargetGroups([], [], [lb]));
  }

  /** source/ingress_test.go:154-166: one rule host and one load-balancer host name give one CNAME. */
  lemma OneRuleHostOneLbHostname()
    ensures EndpointsFromIngress(Build(Plain(["foo.bar"], [], ["lb.com"])), NoFlags)
         == [Rec("foo.bar", CNAME, ["lb.com"], "ingress//")]
  {
    FooBarValid();
    CnameShape("foo.bar", "lb.com");
  }

  /** One valid rule host and one IPv4 entry: one A record. */
  lemma AShape(host: string, ip: string)
    requires PlainValid(host) && Classify(ip) == IPv4
    ensures EndpointsFromIngress(Build(Plain([host], [ip], [])), NoFlags) == [Rec(host, A, [ip], "ingress//")]
  {
    SelectUniform([ip], IPv4, IPv6);
    PlainOneHost(host, [ip], [], TargetGroups([ip], [], []));
  }

  /** source/ingress_test.go:168-179: one rule host and one IPv4 entry give one A record. */
  lemma OneRuleHostOneLbIp()
    ensures EndpointsFromIngress(Build(Plain(["foo.bar"], ["8.8.8.8"], [])), NoFlags)
         == [Rec("foo.bar", A, ["8.8.8.8"], "ingress//")]
  {
    FooBarValid();
    Address8888();
    AShape("foo.bar", "8.8.8.8");
  }

  /** One valid rule host and one IPv6 entry: one AAAA record. */
  lemma AaaaShape(host: string, ip: string)
    requires PlainValid(host) && Classify(ip) == IPv6
    ensures EndpointsFromIngress(Build(Plain([host], [ip], [])), NoFlags) == [Rec(host, AAAA, [ip], "ingress//")]
  {
    SelectUniform([ip], IPv6, IPv4);
    PlainOneHost(host, [ip], [], TargetGroups([], [ip], []));
  }

  /** source/ingress_test.go:182-192: one rule host and one IPv6 entry give one AAAA record. */
  lemma OneRuleHostOneLbIpv6()
    ensures EndpointsFromIngress(Build(Plain(["foo.bar"], ["2606:4700:4700::1111"], [])), NoFlags)
         == [Rec("foo.bar", AAAA, ["2606:4700:4700::1111"], "ingress//")]
  {
    FooBarValid();
    Address1111v6();
    AaaaShape("foo.bar", "2606:4700:4700::1111");
  }

  /** Two targets of one family, then two of another: each family selects its pair. */
  lemma SelectPairs(a: string, b: string, c: string, d: string, f: Family, other: Family)
    requires Classify(a) == f && Classify(b) == f && Classify(c) == other && Classify(d) == other && f != other
    ensures Select([a, b, c, d], f) == [a, b]
  {
    SelectUniform([a, b], f, other);
    SelectUniform([c, d], other, f);
    SelectAppend([a, b], [c, d], f);
    Join22(a, b, c, d);
  }

  lemma SelectLaterPair(a: string, b: string, c: string, d: string, f: Family, other: Family)
    requires Classify(a) == f && Classify(b) == f && Classify(c) == other && Classify(d) == other && f != other
    ensures Select([a, b, c, d], other) == [c, d]
  {
    SelectUniform([a, b], f, other);
    SelectUniform([c, d], other, f);
    SelectAppend([a, b], [c, d], other);
    Join22(a, b, c, d);
  }

  lemma AllFamiliesGroups(a: string, b: string, c: string, d: string, x: string, y: string)
    requires x != "" && y != ""
    requires Classify(a) == IPv4 && Classify(b) == IPv4 && Classify(c) == IPv6 && Classify(d) == IPv6
    ensures TargetGroups(Select([a, b, c, d], IPv4), Select([a, b, c, d], IPv6), NonEmpty([x, y]))
         == TargetGroups([a, b], [c, d], [x, y])
  {
    SelectPairs(a, b, c, d, IPv4, IPv6);
    SelectLaterPair(a, b, c, d, IPv4, IPv6);
    NonEmptyOfFilled([x, y]);
  }

  /** Two IPv4 entries, then two IPv6 entries, then two host names: one record per family, groups in order. */
  lemma AllFamiliesShape(host: string, a: string, b: string, c: string, d: string, x: string, y: string)
    requires PlainValid(host) && x != "" && y != ""
    requires Classify(a) == IPv4 && Classify(b) == IPv4 && Classify(c) == IPv6 && Classify(d) == IPv6
    ensures EndpointsFromIngress(Build(Plain([host], [a, b, c, d], [x, y])), NoFlags)
         == [Rec(host, A, [a, b], "ingress//"), Rec(host, AAAA, [c, d], "ingress//"), Rec(host, CNAME, [x, y], "ingress//")]
  {
    AllFamiliesGroups(a, b, c, d, x, y);
    PlainOneHost(host, [a, b, c, d], [x, y], TargetGroups([a, b], [c, d], [x, y]));
    FormAll(host, [a, b], [c, d], [x, y], "ingress//");
  }

  /**
   * source/ingress_test.go:196-219: two IPv4, two IPv6 and two host-name
   * entries give one A, one AAAA and one CNAME record, each with its group in
   * entry order.
   */
  lemma OneRuleHostAllFamilies()
    ensures EndpointsFromIngress(Build(Plain(["foo.bar"], ["8.8.8.8", "127.0.0.1", "2606:4700:4700::1111", "2606:4700:4700::1001"],
                                              ["elb.com", "alb.com"])), NoFlags)
         == [Rec("foo.bar", A, ["8.8.8.8", "127.0.0.1"], "ingress//"),
             Rec("foo.bar", AAAA, ["2606:4700:4700::1111", "2606:4700:4700::1001"], "ingress//"),
             Rec("foo.bar", CNAME, ["elb.com", "alb.com"], "ingress//")]
  {
    FooBarValid();
    Address8888();
    Address127001();
    Address1111v6();
    Address1001v6();
    AllFamiliesShape("foo.bar", "8.8.8.8", "127.0.0.1", "2606:4700:4700::1111", "2606:4700:4700::1001", "elb.com", "alb.com");
  }

  /** source/ingress_test.go:221-227: no rule host, no records, whatever the targets. */
  lemma NoRuleHost()
    ensures EndpointsFromIngress(Build(Plain([], ["8.8.8.8", "127.0.0.1"], ["elb.com", "alb.com"])), NoFlags) == []
  {
    PlainRecords([], ["8.8.8.8", "127.0.0.1"], ["elb.com", "alb.com"], NoFlags);
  }

  /** source/ingress_test.go:229-236: an empty rule host is no host. */
  lemma OneEmptyRuleHost()
    ensures EndpointsFromIngress(Build(Plain([""], ["8.8.8.8", "127.0.0.1"], ["elb.com", "alb.com"])), NoFlags) == []
  {
    assert Defined(Plain([""], ["8.8.8.8", "127.0.0.1"], ["elb.com", "alb.com"]), NoFlags) == [];
    PlainRecords([""], ["8.8.8.8", "127.0.0.1"], ["elb.com", "alb.com"], NoFlags);
  }

  /** source/ingress_test.go:238-243: no targets, no records. */
  lemma NoTargets()
    ensures EndpointsFromIngress(Build(Plain([""], [], [])), NoFlags) == []
  {
    assert Defined(Plain([""], [], []), NoFlags) == [];
    PlainRecords([""], [], [], NoFlags);
  }

  /** source/ingress_test.go:245-253: with the rules ignored, a rule host gives nothing. */
  lemma IgnoreRulesOneRuleHost()
    ensures EndpointsFromIngress(Build(Plain(["test"], [], ["lb.com"])), Flags(false, false, true)) == []
  {
    assert Defined(Plain(["test"], [], ["lb.com"]), Flags(false, false, true)) == [];
    PlainRecords(["test"], [], ["lb.com"], Flags(false, false, true));
  }

  const LongLabel: string := "this-is-an-exceedingly-long-label" + "-that-external-dns-should-reject"

  /** The host of source/ingress_test.go:257, whose first label is 65 characters long. */
  const LongLabelHost: string := LongLabel + ".example.org"

  lemma LongLabelHostIsInvalid()
    ensures !ValidDNSName(TrimSuffix(LongLabelHost, '.'))
  {
    LongLabelHasNoDot();
    LongLabelHostEnds();
    LongFirstLabelIsInvalid(LongLabel, "example.org");
  }

  /** The long label is 65 characters without a dot. */
  lemma LongLabelHasNoDot()
    ensures |LongLabel| == 65 && '.' !in LongLabel
  {
    assert '.' !in "this-is-an-exceedingly-long-label";
    assert '.' !in "-that-external-dns-should-reject";
  }

  /** The long host is the long label before "example.org", and it does not end in a dot. */
  lemma LongLabelHostEnds()
    ensures LongLabelHost == LongLabel + "." + "example.org"
    ensures TrimSuffix(LongLabelHost, '.') == LongLabelHost
  {
    assert LongLabelHost[|LongLabelHost| - 1] == 'g';
  }

  /**
   * source/ingress_test.go:254-259: a host with a 65-character label gives no
   * records; the row has no targets, so this one gives the host an IPv4 target
   * as well, and still none is made.
   */
  lemma InvalidHostnameNoEndpoints()
    ensures EndpointsFromIngress(Build(Plain([LongLabelHost], [], [])), NoFlags) == []
    ensures EndpointsFromIngress(Build(Plain([LongLabelHost], ["8.8.8.8"], [])), NoFlags) == []
  {
    LongHostNoRecords([]);
    LongHostNoRecords(["8.8.8.8"]);
  }

  /** The host with the long label gives no records, whatever its targets. */
  lemma LongHostNoRecords(ips: seq<string>)
    ensures EndpointsFromIngress(Build(Plain([LongLabelHost], ips, [])), NoFlags) == []
  {
    LongLabelHostIsInvalid();
    var f := Plain([LongLabelHost], ips, []);
    HostsWithoutAnnotation(f, NoFlags);
    assert CollectHosts(Build(f), NoFlags) == [LongLabelHost];
  }

  /** An ingress with the hostname annotation (and source mode, if given) and one load-balancer host name. */
  function Annotated(annotations: map<string, string>): FakeIngress
  {
    FakeIngress(["foo.bar"], [], [], ["lb.com"], "", "", annotations, map[], "")
  }

  /** The rule host of an annotated ingress is its only defined host. */
  lemma AnnotatedDefined(annotations: map<string, string>)
    ensures Defined(Annotated(annotations), NoFlags) == ["foo.bar"]
  {
    assert Defined(Annotated(annotations), NoFlags) == BlockHosts(["foo.bar"]) + TlsHosts(TlsFor([]));
  }

  /** The records of an annotated ingress given its candidate hosts. */
  lemma AnnotatedRecords(annotations: map<string, string>, hosts: seq<string>)
    requires TargetKey !in annotations && TtlKey !in annotations && AliasKey !in annotations
    requires CollectHosts(Build(Annotated(annotations)), NoFlags) == hosts
    requires forall h :: h in hosts ==> PlainValid(h)
    ensures EndpointsFromIngress(Build(Annotated(annotations)), NoFlags)
         == HostsForm(hosts, TargetGroups([], [], ["lb.com"]), RecordOptions(None, false, "ingress//"))
  {
    var f := Annotated(annotations);
    var g := TargetGroups([], [], ["lb.com"]);
    var opts := RecordOptions(None, false, "ingress//");
    StatusGroupsOfFake(f);
    OptionsOfFake(f, None, false);
    Assemble(Build(f), NoFlags, hosts, g, opts, HostsForm(hosts, g, opts));
  }

  /** The hostname annotation alone. */
  function HostnameOnly(hosts: string): map<string, string>
  {
    map[HostnameKey := hosts]
  }

  /** The hostname annotation and a source mode. */
  function WithSource(hosts: string, mode: string): map<string, string>
  {
    map[HostnameKey := hosts, HostnameSourceKey := mode]
  }

  lemma NotRecordKeys(ann: map<string, string>)
    requires forall k :: k in ann ==> k == HostnameKey || k == HostnameSourceKey
    ensures TargetKey !in ann && TtlKey !in ann && AliasKey !in ann
  {
    KeyLengths();
  }

  lemma NoSourceModeHosts(v: string)
    requires IsTrimmedEntry(v, ',')
    ensures CollectHosts(Build(Annotated(HostnameOnly(v))), NoFlags) == ["foo.bar", v]
  {
    KeyLengths();
    SplitListOne(v);
    HostsWithAnnotation(Annotated(HostnameOnly(v)), NoFlags, [v]);
    AnnotatedDefined(HostnameOnly(v));
    Join11("foo.bar", v);
  }

  /** Without a source mode, the rule host's record, then the annotation host's. */
  lemma NoSourceModeShape(v: string)
    requires IsTrimmedEntry(v, ',') && PlainValid(v)
    ensures EndpointsFromIngress(Build(Annotated(HostnameOnly(v))), NoFlags)
         == [Rec("foo.bar", CNAME, ["lb.com"], "ingress//"), Rec(v, CNAME, ["lb.com"], "ingress//")]
  {
    NotRecordKeys(HostnameOnly(v));
    NoSourceModeHosts(v);
    FooBarValid();
    FormsCname2("foo.bar", v, "lb.com", "ingress//");
    AnnotatedRecords(HostnameOnly(v), ["foo.bar", v]);
  }

  /**
   * source/ingress_test.go:276-294 and 310-328 (the same row twice): without a
   * source mode, the rule host and then the annotation host.
   */
  lemma NoSourceModeRuleAndAnnotationHost()
    ensures EndpointsFromIngress(Build(Annotated(HostnameOnly("foo.baz"))), NoFlags)
         == [Rec("foo.bar", CNAME, ["lb.com"], "ingress//"), Rec("foo.baz", CNAME, ["lb.com"], "ingress//")]
  {
    ShortPlainName("foo.baz");
    NoSourceModeShape("foo.baz");
  }

  /** source/ingress_test.go:296-308: without a source mode or an annotation, the rule host. */
  lemma NoSourceModeRuleHost()
    ensures EndpointsFromIngress(Build(Annotated(map[])), NoFlags)
         == [Rec("foo.bar", CNAME, ["lb.com"], "ingress//")]
  {
    OneRuleHostOneLbHostname();
  }

  /** `defined-hosts-only`: the rule host's record only, whatever the annotation lists. */
  lemma DefinedOnlyShape(v: string)
    ensures EndpointsFromIngress(Build(Annotated(WithSource(v, "defined-hosts-only"))), NoFlags)
         == [Rec("foo.bar", CNAME, ["lb.com"], "ingress//")]
  {
    var ann := WithSource(v, "defined-hosts-only");
    NotRecordKeys(ann);
    DefinedOnlyHosts(v);
    FooBarValid();
    AnnotatedRecords(ann, ["foo.bar"]);
    OneHost("foo.bar", TargetGroups([], [], ["lb.com"]), RecordOptions(None, false, "ingress//"));
    FormCname("foo.bar", "lb.com", "ingress//");
  }

  /** `defined-hosts-only`: the rule host is the only candidate. */
  lemma DefinedOnlyHosts(v: string)
    ensures CollectHosts(Build(Annotated(WithSource(v, "defined-hosts-only"))), NoFlags) == ["foo.bar"]
  {
    var ann := WithSource(v, "defined-hosts-only");
    KeyLengths();
    assert HostnameSourceOf(ann) == DefinedHostsOnly;
    DefinedHostsOnlyIgnoresAnnotation(Build(Annotated(ann)), NoFlags);
    DefinedOfBuild(Annotated(ann), NoFlags);
    AnnotatedDefined(ann);
  }

  /** source/ingress_test.go:330-343: `defined-hosts-only` keeps the rule host only. */
  lemma DefinedHostsOnlyMode()
    ensures EndpointsFromIngress(Build(Annotated(WithSource("foo.baz", "defined-hosts-only"))), NoFlags)
         == [Rec("foo.bar", CNAME, ["lb.com"], "ingress//")]
  {
    DefinedOnlyShape("foo.baz");
  }

  lemma AnnotationOnlyHosts(v: string)
    requires IsTrimmedEntry(v, ',')
    ensures CollectHosts(Build(Annotated(WithSource(v, "annotation-only"))), NoFlags) == [v]
  {
    var ing := Build(Annotated(WithSource(v, "annotation-only")));
    KeyLengths();
    assert HostnameSourceOf(ing.meta.annotations) == AnnotationOnly;
    AnnotationOnlyUsesAnnotation(ing, NoFlags, ing.spec, NoFlags);
    SplitListOne(v);
  }

  /** `annotation-only`: the annotation host's record only. */
  lemma AnnotationOnlyShape(v: string)
    requires IsTrimmedEntry(v, ',') && PlainValid(v)
    ensures EndpointsFromIngress(Build(Annotated(WithSource(v, "annotation-only"))), NoFlags)
         == [Rec(v, CNAME, ["lb.com"], "ingress//")]
  {
    NotRecordKeys(WithSource(v, "annotation-only"));
    AnnotationOnlyHosts(v);
    AnnotatedRecords(WithSource(v, "annotation-only"), [v]);
  }

  /** source/ingress_test.go:345-358: `annotation-only` keeps the annotation host only. */
  lemma AnnotationOnlyMode()
    ensures EndpointsFromIngress(Build(Annotated(WithSource("foo.baz", "annotation-only"))), NoFlags)
         == [Rec("foo.baz", CNAME, ["lb.com"], "ingress//")]
  {
    ShortPlainName("foo.baz");
    AnnotationOnlyShape("foo.baz");
  }
}
