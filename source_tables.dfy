/**
 * The rows of the `Endpoints` table in source/ingress_test.go: each row's
 * configuration and ingresses, and exactly the records `Endpoints` returns for
 * them, in the order the row lists them, each with its ingress's resource label.
 * The row's ingresses live in the namespace "testing" unless the row says
 * otherwise.
 */
module SourceTables {
  import opened Wrappers
  import opened Strings
  import opened Addresses
  import opened Networking
  import opened Endpoint
  import opened Annotations
  import opened Labels
  import opened Fqdn
  import opened Targets
  import opened Hosts
  import opened IngressEndpoints
  import opened IngressSource
  import opened TableSupport
  import opened SourceShapes

  /** A row's ingress without labels or class name. */
  function Item(namespace: string, name: string, dnsnames: seq<string>, tlsdnsnames: seq<seq<string>>,
                ips: seq<string>, hostnames: seq<string>, annotations: map<string, string>): FakeIngress
  {
    FakeIngress(dnsnames, tlsdnsnames, ips, hostnames, namespace, name, annotations, map[], "")
  }

  /** A row's configuration with the gates open and no template. */
  function Plain(flags: Flags): Config
  {
    Config("", NoFilter, "", false, flags, Everything, [])
  }

  /** A row's configuration with one gate set and no template. */
  function Gated(namespace: string, filter: AnnotationFilter, selector: Selector, classNames: seq<string>): Config
  {
    Config(namespace, filter, "", false, NoFlags, selector, classNames)
  }

  /** A row's configuration with the gates open and an FQDN template. */
  function Templated(template: string, combine: bool): Config
  {
    Config("", NoFilter, template, combine, NoFlags, Everything, [])
  }

  const DnsSuffix: string := ".ext-dns.test.com"
  const DnaSuffix: string := ".ext-dna.test.com"

  /** The template `{{.Name}}<suffix>`. */
  function OneName(suffix: string): string
  {
    NameAction + suffix
  }

  /** The template `{{.Name}}<first>, {{.Name}}<second>`. */
  function TwoNames(first: string, second: string): string
  {
    NameAction + first + ", " + NameAction + second
  }

  lemma SuffixesAreNameEntries()
    ensures IsNameEntry(DnsSuffix) && IsNameEntry(DnaSuffix)
  {
  }

  /** The names the two templates give the row ingresses. */
  lemma Fake1Names()
    ensures "fake1" + DnsSuffix == "fake1.ext-dns.test.com"
    ensures "fake1" + DnaSuffix == "fake1.ext-dna.test.com"
  {
    assert "fake1" + DnsSuffix == "fake1.ext-dns.test.com";
  }

  lemma Fake2Names()
    ensures "fake2" + DnsSuffix == "fake2.ext-dns.test.com"
    ensures "fake2" + DnaSuffix == "fake2.ext-dna.test.com"
  {
    assert "fake2" + DnsSuffix == "fake2.ext-dns.test.com";
  }

  lemma Fake3Name()
    ensures "fake3" + DnsSuffix == "fake3.ext-dns.test.com"
  {
  }

  /** The annotation holding only the legacy class. */
  lemma ClassOnlyKeys(v: string)
    ensures NoRecordKeys(map[IngressClassKey := v]) && ControlledByUs(map[IngressClassKey := v])
  {
    KeyLengths();
  }

  /** The annotation holding only the controller. */
  lemma ControllerOnlyKeys(v: string)
    ensures NoRecordKeys(map[ControllerKey := v])
    ensures ControlledByUs(map[ControllerKey := v]) <==> v == ControllerValue
  {
    KeyLengths();
  }

  lemma TargetOnlyKeys(t: string)
    ensures ControlledByUs(map[TargetKey := t])
  {
    KeyLengths();
  }

  /** Annotation maps without the controller key belong to this controller. */
  lemma HostnameKeysControlled(v: string, t: string)
    ensures ControlledByUs(map[HostnameKey := v])
    ensures ControlledByUs(map[HostnameKey := v, TargetKey := t])
  {
    KeyLengths();
  }

  lemma TargetPairControlled(t: string, k: string, v: string)
    requires k == TtlKey || k == AliasKey
    ensures ControlledByUs(map[TargetKey := t, k := v])
  {
    KeyLengths();
  }

  /** The plain entries of the annotation rows. */
  lemma TrimmedEntriesOfRows()
    ensures IsTrimmedEntry("1.2.3.4", ',')
    ensures IsTrimmedEntry("dns-through-hostname.com", ',')
    ensures IsTrimmedEntry("another-dns-through-hostname.com", ',')
  {
  }

  /** The hostname annotation of two hosts. */
  lemma TwoHostsText()
    ensures "dns-through-hostname.com" + ", " + "another-dns-through-hostname.com"
         == "dns-through-hostname.com, another-dns-through-hostname.com"
  {
  }

  /** The TTL values of the custom TTL row. */
  lemma TtlValuesOfRow()
    ensures ParseTtl("6") == Some(6) && ParseTtl("1") == Some(1) && ParseTtl("10s") == Some(10)
  {
    assert "10s"[..2] == "10";
    assert "10"[..1] == "1";
    assert AllDigits("10") by {
      assert forall c :: c in "10" ==> c == '1' || c == '0';
    }
    assert DecimalValue("10") == 10 * DecimalValue("1") + DigitValue('0');
  }

  lemma AliasValues()
    ensures ParseBool("true") == Some(true) && ParseBool("false") == Some(false)
  {
  }

  /** source/ingress_test.go:387-390: no ingress, no records. */
  lemma NoIngress()
    ensures Endpoints(Plain(NoFlags), []) == Success([])
  {
  }

  /** The first ingress of the two-ingress rows, in namespace `ns`: one A record. */
  lemma SimpleAIngress(ns: string)
    ensures Contribution(Plain(NoFlags), Build(Item(ns, "fake1", ["example.org"], [], ["8.8.8.8"], [], map[])))
         == [Rec("example.org", A, ["8.8.8.8"], Owner(ns, "fake1"))]
  {
    var f1 := Item(ns, "fake1", ["example.org"], [], ["8.8.8.8"], [], map[]);
    ExampleOrgValid();
    Address8888();
    OwnA(Plain(NoFlags), f1, "example.org", "8.8.8.8");
    OpenContribution(Plain(NoFlags), Build(f1), [Rec("example.org", A, ["8.8.8.8"], Owner(ns, "fake1"))]);
  }

  /** The second ingress of the two-ingress rows, in namespace `ns`: one CNAME record. */
  lemma SimpleCnameIngress(ns: string)
    ensures Contribution(Plain(NoFlags), Build(Item(ns, "fake2", ["new.org"], [], [], ["lb.com"], map[])))
         == [Rec("new.org", CNAME, ["lb.com"], Owner(ns, "fake2"))]
  {
    var f2 := Item(ns, "fake2", ["new.org"], [], [], ["lb.com"], map[]);
    ShortPlainName("new.org");
    OwnCname(Plain(NoFlags), f2, "new.org", "lb.com");
    OpenContribution(Plain(NoFlags), Build(f2), [Rec("new.org", CNAME, ["lb.com"], Owner(ns, "fake2"))]);
  }

  /** source/ingress_test.go:391-420: two ingresses, an A record and then a CNAME record. */
  lemma TwoSimpleIngresses()
    ensures Endpoints(Plain(NoFlags), [Build(Item("testing", "fake1", ["example.org"], [], ["8.8.8.8"], [], map[])),
                                       Build(Item("testing", "fake2", ["new.org"], [], [], ["lb.com"], map[]))])
         == Success([Rec("example.org", A, ["8.8.8.8"], Owner("testing", "fake1")),
                     Rec("new.org", CNAME, ["lb.com"], Owner("testing", "fake2"))])
  {
    var cfg := Plain(NoFlags);
    var f1 := Item("testing", "fake1", ["example.org"], [], ["8.8.8.8"], [], map[]);
    var f2 := Item("testing", "fake2", ["new.org"], [], [], ["lb.com"], map[]);
    var r1 := Rec("example.org", A, ["8.8.8.8"], Owner("testing", "fake1"));
    var r2 := Rec("new.org", CNAME, ["lb.com"], Owner("testing", "fake2"));
    SimpleAIngress("testing");
    SimpleCnameIngress("testing");
    EndpointsTwo(cfg, Build(f1), Build(f2), [r1], [r2]);
    Join11(r1, r2);
  }

  /** source/ingress_test.go:421-438: an IPv6 entry gives an AAAA record. */
  lemma Ipv6Ingress()
    ensures Endpoints(Plain(NoFlags), [Build(Item("testing", "fake1", ["example.org"], [], ["2001:DB8::1"], [], map[]))])
         == Success([Rec("example.org", AAAA, ["2001:DB8::1"], Owner("testing", "fake1"))])
  {
    var cfg := Plain(NoFlags);
    var f1 := Item("testing", "fake1", ["example.org"], [], ["2001:DB8::1"], [], map[]);
    ExampleOrgValid();
    Address2001v6();
    OwnAaaa(cfg, f1, "example.org", "2001:DB8::1");
    OpenContribution(cfg, Build(f1), [Rec("example.org", AAAA, ["2001:DB8::1"], Owner("testing", "fake1"))]);
    EndpointsOne(cfg, Build(f1), [Rec("example.org", AAAA, ["2001:DB8::1"], Owner("testing", "fake1"))]);
  }

  /** source/ingress_test.go:439-462: an IPv4 and an IPv6 entry give an A and then an AAAA record. */
  lemma DualstackIngress()
    ensures Endpoints(Plain(NoFlags), [Build(Item("testing", "fake1", ["example.org"], [], ["8.8.8.8", "2001:DB8::1"], [], map[]))])
         == Success([Rec("example.org", A, ["8.8.8.8"], Owner("testing", "fake1")),
                     Rec("example.org", AAAA, ["2001:DB8::1"], Owner("testing", "fake1"))])
  {
    var cfg := Plain(NoFlags);
    var f1 := Item("testing", "fake1", ["example.org"], [], ["8.8.8.8", "2001:DB8::1"], [], map[]);
    var rs := [Rec("example.org", A, ["8.8.8.8"], Owner("testing", "fake1")),
               Rec("example.org", AAAA, ["2001:DB8::1"], Owner("testing", "fake1"))];
    ExampleOrgValid();
    Address8888();
    Address2001v6();
    OwnDual(cfg, f1, "example.org", "8.8.8.8", "2001:DB8::1");
    OpenContribution(cfg, Build(f1), rs);
    EndpointsOne(cfg, Build(f1), rs);
  }

  /** source/ingress_test.go:463-482: ignoring the rules leaves ingresses with rule hosts only without records. */
  lemma IgnoreRules()
    ensures Endpoints(Plain(Flags(false, false, true)),
                      [Build(Item("testing", "fake1", ["example.org"], [], ["8.8.8.8"], [], map[])),
                       Build(Item("testing", "fake2", ["new.org"], [], [], ["lb.com"], map[]))])
         == Success([])
  {
    var cfg := Plain(Flags(false, false, true));
    var f1 := Item("testing", "fake1", ["example.org"], [], ["8.8.8.8"], [], map[]);
    var f2 := Item("testing", "fake2", ["new.org"], [], [], ["lb.com"], map[]);
    OwnNothing(cfg, f1);
    OwnNothing(cfg, f2);
    OpenContribution(cfg, Build(f1), []);
    OpenContribution(cfg, Build(f2), []);
    EndpointsTwo(cfg, Build(f1), Build(f2), [], []);
  }

  /** source/ingress_test.go:483-512: without a target namespace, both namespaces contribute. */
  lemma DifferentNamespaces()
    ensures Endpoints(Plain(NoFlags), [Build(Item("testing1", "fake1", ["example.org"], [], ["8.8.8.8"], [], map[])),
                                       Build(Item("testing2", "fake2", ["new.org"], [], [], ["lb.com"], map[]))])
         == Success([Rec("example.org", A, ["8.8.8.8"], Owner("testing1", "fake1")),
                     Rec("new.org", CNAME, ["lb.com"], Owner("testing2", "fake2"))])
  {
    var cfg := Plain(NoFlags);
    var f1 := Item("testing1", "fake1", ["example.org"], [], ["8.8.8.8"], [], map[]);
    var f2 := Item("testing2", "fake2", ["new.org"], [], [], ["lb.com"], map[]);
    var r1 := Rec("example.org", A, ["8.8.8.8"], Owner("testing1", "fake1"));
    var r2 := Rec("new.org", CNAME, ["lb.com"], Owner("testing2", "fake2"));
    SimpleAIngress("testing1");
    SimpleCnameIngress("testing2");
    EndpointsTwo(cfg, Build(f1), Build(f2), [r1], [r2]);
    Join11(r1, r2);
  }

  /** source/ingress_test.go:513-537: a target namespace keeps only the ingresses that live in it. */
  lemma TargetNamespace()
    ensures Endpoints(Gated("testing1", NoFilter, Everything, []),
                      [Build(Item("testing1", "fake1", ["example.org"], [], ["8.8.8.8"], [], map[])),
                       Build(Item("testing2", "fake2", ["new.org"], [], [], ["lb.com"], map[]))])
         == Success([Rec("example.org", A, ["8.8.8.8"], Owner("testing1", "fake1"))])
  {
    var cfg := Gated("testing1", NoFilter, Everything, []);
    var f1 := Item("testing1", "fake1", ["example.org"], [], ["8.8.8.8"], [], map[]);
    var f2 := Item("testing2", "fake2", ["new.org"], [], [], ["lb.com"], map[]);
    var r1 := Rec("example.org", A, ["8.8.8.8"], Owner("testing1", "fake1"));
    assert Contribution(cfg, Build(f1)) == [r1] by {
      ExampleOrgValid();
      Address8888();
      OwnA(cfg, f1, "example.org", "8.8.8.8");
      assert Matches([], map[]);
      Admit(cfg, Build(f1), [r1]);
    }
    assert Contribution(cfg, Build(f2)) == [] by {
      assert !InNamespace(cfg.namespace, Build(f2));
      Exclude(cfg, Build(f2));
    }
    EndpointsTwo(cfg, Build(f1), Build(f2), [r1], []);
    Join10(r1);
  }

  /** source/ingress_test.go:538-560: an ingress whose class annotation is in the filter's set contributes. */
  lemma FilterSetMatches()
    ensures Endpoints(Gated("", Filter([In(IngressClassKey, {"alb", "nginx"})]), Everything, []),
                      [Build(Item("testing", "fake1", ["example.org"], [], ["8.8.8.8"], [], map[IngressClassKey := "nginx"]))])
         == Success([Rec("example.org", A, ["8.8.8.8"], Owner("testing", "fake1"))])
  {
    var cfg := Gated("", Filter([In(IngressClassKey, {"alb", "nginx"})]), Everything, []);
    var f1 := Item("testing", "fake1", ["example.org"], [], ["8.8.8.8"], [], map[IngressClassKey := "nginx"]);
    var r1 := Rec("example.org", A, ["8.8.8.8"], Owner("testing", "fake1"));
    ExampleOrgValid();
    Address8888();
    ClassOnlyKeys("nginx");
    OwnA(cfg, f1, "example.org", "8.8.8.8");
    SetSelector(IngressClassKey, {"alb", "nginx"}, map[IngressClassKey := "nginx"]);
    assert Matches([], map[]);
    Admit(cfg, Build(f1), [r1]);
    EndpointsOne(cfg, Build(f1), [r1]);
  }

  /** source/ingress_test.go:561-577: a class annotation outside the filter's set excludes the ingress. */
  lemma FilterSetDoesNotMatch()
    ensures Endpoints(Gated("", Filter([In(IngressClassKey, {"alb", "nginx"})]), Everything, []),
                      [Build(Item("testing", "fake1", ["example.org"], [], ["8.8.8.8"], [], map[IngressClassKey := "tectonic"]))])
         == Success([])
  {
    var cfg := Gated("", Filter([In(IngressClassKey, {"alb", "nginx"})]), Everything, []);
    var f1 := Item("testing", "fake1", ["example.org"], [], ["8.8.8.8"], [], map[IngressClassKey := "tectonic"]);
    SetSelector(IngressClassKey, {"alb", "nginx"}, map[IngressClassKey := "tectonic"]);
    Exclude(cfg, Build(f1));
    EndpointsOne(cfg, Build(f1), []);
  }

  /** source/ingress_test.go:578-595: a filter that does not parse fails the call. */
  lemma InvalidFilter()
    ensures Endpoints(Gated("", Unparsable, Everything, []),
                      [Build(Item("testing", "fake1", ["example.org"], [], ["8.8.8.8"], [], map[IngressClassKey := "alb"]))])
         == Failure(InvalidAnnotationFilter)
  {
  }

  /** source/ingress_test.go:596-618: a class annotation equal to the filter's value contributes. */
  lemma FilterLabelMatches()
    ensures Endpoints(Gated("", Filter([Equals(IngressClassKey, "nginx")]), Everything, []),
                      [Build(Item("testing", "fake1", ["example.org"], [], ["8.8.8.8"], [], map[IngressClassKey := "nginx"]))])
         == Success([Rec("example.org", A, ["8.8.8.8"], Owner("testing", "fake1"))])
  {
    var cfg := Gated("", Filter([Equals(IngressClassKey, "nginx")]), Everything, []);
    var f1 := Item("testing", "fake1", ["example.org"], [], ["8.8.8.8"], [], map[IngressClassKey := "nginx"]);
    var r1 := Rec("example.org", A, ["8.8.8.8"], Owner("testing", "fake1"));
    ExampleOrgValid();
    Address8888();
    ClassOnlyKeys("nginx");
    OwnA(cfg, f1, "example.org", "8.8.8.8");
    PairSelector(IngressClassKey, "nginx", map[IngressClassKey := "nginx"]);
    assert Matches([], map[]);
    Admit(cfg, Build(f1), [r1]);
    EndpointsOne(cfg, Build(f1), [r1]);
  }

  /** source/ingress_test.go:619-635: a class annotation other than the filter's value excludes the ingress. */
  lemma FilterLabelDoesNotMatch()
    ensures Endpoints(Gated("", Filter([Equals(IngressClassKey, "nginx")]), Everything, []),
                      [Build(Item("testing", "fake1", ["example.org"], [], ["8.8.8.8"], [], map[IngressClassKey := "alb"]))])
         == Success([])
  {
    var cfg := Gated("", Filter([Equals(IngressClassKey, "nginx")]), Everything, []);
    var f1 := Item("testing", "fake1", ["example.org"], [], ["8.8.8.8"], [], map[IngressClassKey := "alb"]);
    PairSelector(IngressClassKey, "nginx", map[IngressClassKey := "alb"]);
    Exclude(cfg, Build(f1));
    EndpointsOne(cfg, Build(f1), []);
  }

  /** source/ingress_test.go:636-657: an ingress claimed by this controller contributes. */
  lemma OurController()
    ensures Endpoints(Plain(NoFlags),
                      [Build(Item("testing", "fake1", ["example.org"], [], ["8.8.8.8"], [], map[ControllerKey := ControllerValue]))])
         == Success([Rec("example.org", A, ["8.8.8.8"], Owner("testing", "fake1"))])
  {
    var cfg := Plain(NoFlags);
    var f1 := Item("testing", "fake1", ["example.org"], [], ["8.8.8.8"], [], map[ControllerKey := ControllerValue]);
    var r1 := Rec("example.org", A, ["8.8.8.8"], Owner("testing", "fake1"));
    ExampleOrgValid();
    Address8888();
    ControllerOnlyKeys(ControllerValue);
    OwnA(cfg, f1, "example.org", "8.8.8.8");
    OpenContribution(cfg, Build(f1), [r1]);
    EndpointsOne(cfg, Build(f1), [r1]);
  }

  /** source/ingress_test.go:658-673: an ingress claimed by another controller is skipped. */
  lemma OtherController()
    ensures Endpoints(Plain(NoFlags),
                      [Build(Item("testing", "fake1", ["example.org"], [], ["8.8.8.8"], [], map[ControllerKey := "some-other-tool"]))])
         == Success([])
  {
    var cfg := Plain(NoFlags);
    var f1 := Item("testing", "fake1", ["example.org"], [], ["8.8.8.8"], [], map[ControllerKey := "some-other-tool"]);
    ControllerOnlyKeys("some-other-tool");
    Exclude(cfg, Build(f1));
    EndpointsOne(cfg, Build(f1), []);
  }

  /** source/ingress_test.go:674-702: without a host, the template names the records of both targets. */
  lemma TemplateForMissingHost()
    ensures Endpoints(Templated(OneName(DnsSuffix), false),
                      [Build(Item("testing", "fake1", [], [], ["8.8.8.8"], ["elb.com"], map[ControllerKey := ControllerValue]))])
         == Success([Rec("fake1.ext-dns.test.com", A, ["8.8.8.8"], Owner("testing", "fake1")),
                     Rec("fake1.ext-dns.test.com", CNAME, ["elb.com"], Owner("testing", "fake1"))])
  {
    var cfg := Templated(OneName(DnsSuffix), false);
    var f1 := Item("testing", "fake1", [], [], ["8.8.8.8"], ["elb.com"], map[ControllerKey := ControllerValue]);
    var rs := [Rec("fake1.ext-dns.test.com", A, ["8.8.8.8"], Owner("testing", "fake1")),
               Rec("fake1.ext-dns.test.com", CNAME, ["elb.com"], Owner("testing", "fake1"))];
    assert Contribution(cfg, Build(f1)) == rs by {
      ShortPlainName("fake1.ext-dns.test.com");
      Address8888();
      ControllerOnlyKeys(ControllerValue);
      SuffixesAreNameEntries();
      Fake1Names();
      TemplateACname(cfg, f1, DnsSuffix, "fake1.ext-dns.test.com", "8.8.8.8", "elb.com");
      OpenContribution(cfg, Build(f1), rs);
    }
    EndpointsOne(cfg, Build(f1), rs);
  }

  /** source/ingress_test.go:703-719: another controller's ingress is skipped even with a template. */
  lemma OtherControllerWithTemplate()
    ensures Endpoints(Templated(OneName(DnsSuffix), false),
                      [Build(Item("testing", "fake1", [], [], ["8.8.8.8"], [], map[ControllerKey := "other-controller"]))])
         == Success([])
  {
    var cfg := Templated(OneName(DnsSuffix), false);
    var f1 := Item("testing", "fake1", [], [], ["8.8.8.8"], [], map[ControllerKey := "other-controller"]);
    ControllerOnlyKeys("other-controller");
    Exclude(cfg, Build(f1));
    EndpointsOne(cfg, Build(f1), []);
  }

  /** source/ingress_test.go:720-745: a template of two names gives an A record for each. */
  lemma TemplateOfTwoNames()
    ensures Endpoints(Templated(TwoNames(DnsSuffix, DnaSuffix), false),
                      [Build(Item("testing", "fake1", [], [], ["8.8.8.8"], [], map[]))])
         == Success([Rec("fake1.ext-dns.test.com", A, ["8.8.8.8"], Owner("testing", "fake1")),
                     Rec("fake1.ext-dna.test.com", A, ["8.8.8.8"], Owner("testing", "fake1"))])
  {
    var cfg := Templated(TwoNames(DnsSuffix, DnaSuffix), false);
    var f1 := Item("testing", "fake1", [], [], ["8.8.8.8"], [], map[]);
    var rs := [Rec("fake1.ext-dns.test.com", A, ["8.8.8.8"], Owner("testing", "fake1")),
               Rec("fake1.ext-dna.test.com", A, ["8.8.8.8"], Owner("testing", "fake1"))];
    TwoNamesRecords(false);
    OpenContribution(cfg, Build(f1), rs);
    EndpointsOne(cfg, Build(f1), rs);
  }

  /** The ingress of source/ingress_test.go:720-745 under the two-name template, combined or not. */
  lemma TwoNamesRecords(combine: bool)
    ensures IngressRecords(Templated(TwoNames(DnsSuffix, DnaSuffix), combine),
                           Build(Item("testing", "fake1", [], [], ["8.8.8.8"], [], map[])))
         == [Rec("fake1.ext-dns.test.com", A, ["8.8.8.8"], Owner("testing", "fake1")),
             Rec("fake1.ext-dna.test.com", A, ["8.8.8.8"], Owner("testing", "fake1"))]
  {
    ShortPlainName("fake1.ext-dns.test.com");
    ShortPlainName("fake1.ext-dna.test.com");
    Address8888();
    SuffixesAreNameEntries();
    Fake1Names();
    TemplateTwoA(Templated(TwoNames(DnsSuffix, DnaSuffix), combine), Item("testing", "fake1", [], [], ["8.8.8.8"], [], map[]),
                 DnsSuffix, DnaSuffix, "fake1.ext-dns.test.com", "fake1.ext-dna.test.com", "8.8.8.8");
  }

  /** The templated ingress of the combining row: only its templated records. */
  lemma CombinedFirst()
    ensures Contribution(Templated(TwoNames(DnsSuffix, DnaSuffix), true), Build(Item("testing", "fake1", [], [], ["8.8.8.8"], [], map[])))
         == [Rec("fake1.ext-dns.test.com", A, ["8.8.8.8"], Owner("testing", "fake1")),
             Rec("fake1.ext-dna.test.com", A, ["8.8.8.8"], Owner("testing", "fake1"))]
  {
    var cfg := Templated(TwoNames(DnsSuffix, DnaSuffix), true);
    var f1 := Item("testing", "fake1", [], [], ["8.8.8.8"], [], map[]);
    TwoNamesRecords(true);
    OpenContribution(cfg, Build(f1), [Rec("fake1.ext-dns.test.com", A, ["8.8.8.8"], Owner("testing", "fake1")),
                                      Rec("fake1.ext-dna.test.com", A, ["8.8.8.8"], Owner("testing", "fake1"))]);
  }

  /** The ingress of the combining row with a host: its own record, then the templated ones. */
  lemma CombinedSecondRecords()
    ensures IngressRecords(Templated(TwoNames(DnsSuffix, DnaSuffix), true),
                           Build(Item("testing", "fake2", ["example.org"], [], [], [], map[TargetKey := "ingress-target.com"])))
         == [Rec("example.org", CNAME, ["ingress-target.com"], Owner("testing", "fake2")),
             Rec("fake2.ext-dns.test.com", CNAME, ["ingress-target.com"], Owner("testing", "fake2")),
             Rec("fake2.ext-dna.test.com", CNAME, ["ingress-target.com"], Owner("testing", "fake2"))]
  {
    Fake2NamesValid();
    ExampleOrgValid();
    IngressTargetName();
    SuffixesAreNameEntries();
    CombinedTargetCname(Templated(TwoNames(DnsSuffix, DnaSuffix), true),
                        Item("testing", "fake2", ["example.org"], [], [], [], map[TargetKey := "ingress-target.com"]),
                        DnsSuffix, DnaSuffix, "fake2.ext-dns.test.com", "fake2.ext-dna.test.com",
                        "example.org", "ingress-target.com");
  }

  /** The two template names of the combining row's second ingress are valid. */
  lemma Fake2NamesValid()
    ensures "fake2" + DnsSuffix == "fake2.ext-dns.test.com" && "fake2" + DnaSuffix == "fake2.ext-dna.test.com"
    ensures PlainValid("fake2.ext-dns.test.com") && PlainValid("fake2.ext-dna.test.com")
  {
    ShortPlainName("fake2.ext-dns.test.com");
    ShortPlainName("fake2.ext-dna.test.com");
    Fake2Names();
  }

  lemma CombinedSecond()
    ensures Contribution(Templated(TwoNames(DnsSuffix, DnaSuffix), true),
                         Build(Item("testing", "fake2", ["example.org"], [], [], [], map[TargetKey := "ingress-target.com"])))
         == [Rec("example.org", CNAME, ["ingress-target.com"], Owner("testing", "fake2")),
             Rec("fake2.ext-dns.test.com", CNAME, ["ingress-target.com"], Owner("testing", "fake2")),
             Rec("fake2.ext-dna.test.com", CNAME, ["ingress-target.com"], Owner("testing", "fake2"))]
  {
    CombinedSecondRecords();
    TargetOnlyKeys("ingress-target.com");
    OpenContribution(Templated(TwoNames(DnsSuffix, DnaSuffix), true),
                     Build(Item("testing", "fake2", ["example.org"], [], [], [], map[TargetKey := "ingress-target.com"])),
                     [Rec("example.org", CNAME, ["ingress-target.com"], Owner("testing", "fake2")),
                      Rec("fake2.ext-dns.test.com", CNAME, ["ingress-target.com"], Owner("testing", "fake2")),
                      Rec("fake2.ext-dna.test.com", CNAME, ["ingress-target.com"], Owner("testing", "fake2"))]);
  }

  /**
   * source/ingress_test.go:746-796: with combining, an ingress with its own
   * records gets the templated ones after them; one without gets only those.
   */
  lemma CombinedTemplate()
    ensures Endpoints(Templated(TwoNames(DnsSuffix, DnaSuffix), true),
                      [Build(Item("testing", "fake1", [], [], ["8.8.8.8"], [], map[])),
                       Build(Item("testing", "fake2", ["example.org"], [], [], [], map[TargetKey := "ingress-target.com"]))])
         == Success([Rec("fake1.ext-dns.test.com", A, ["8.8.8.8"], Owner("testing", "fake1")),
                     Rec("fake1.ext-dna.test.com", A, ["8.8.8.8"], Owner("testing", "fake1")),
                     Rec("example.org", CNAME, ["ingress-target.com"], Owner("testing", "fake2")),
                     Rec("fake2.ext-dns.test.com", CNAME, ["ingress-target.com"], Owner("testing", "fake2")),
                     Rec("fake2.ext-dna.test.com", CNAME, ["ingress-target.com"], Owner("testing", "fake2"))])
  {
    var cfg := Templated(TwoNames(DnsSuffix, DnaSuffix), true);
    var r1 := Rec("fake1.ext-dns.test.com", A, ["8.8.8.8"], Owner("testing", "fake1"));
    var r2 := Rec("fake1.ext-dna.test.com", A, ["8.8.8.8"], Owner("testing", "fake1"));
    var r3 := Rec("example.org", CNAME, ["ingress-target.com"], Owner("testing", "fake2"));
    var r4 := Rec("fake2.ext-dns.test.com", CNAME, ["ingress-target.com"], Owner("testing", "fake2"));
    var r5 := Rec("fake2.ext-dna.test.com", CNAME, ["ingress-target.com"], Owner("testing", "fake2"));
    CombinedFirst();
    CombinedSecond();
    EndpointsTwo(cfg, Build(Item("testing", "fake1", [], [], ["8.8.8.8"], [], map[])),
                 Build(Item("testing", "fake2", ["example.org"], [], [], [], map[TargetKey := "ingress-target.com"])),
                 [r1, r2], [r3, r4, r5]);
    Join23(r1, r2, r3, r4, r5);
  }

  /** The first ingress of the target-annotation row: a CNAME to the target. */
  lemma AnnotatedFirst()
    ensures Contribution(Plain(NoFlags), Build(Item("testing", "fake1", ["example.org"], [], [], [], map[TargetKey := "ingress-target.com"])))
         == [Rec("example.org", CNAME, ["ingress-target.com"], Owner("testing", "fake1"))]
  {
    var f := Item("testing", "fake1", ["example.org"], [], [], [], map[TargetKey := "ingress-target.com"]);
    ExampleOrgValid();
    IngressTargetName();
    TargetOnlyKeys("ingress-target.com");
    TargetCname(Plain(NoFlags), f, "example.org", "ingress-target.com");
    OpenContribution(Plain(NoFlags), Build(f), [Rec("example.org", CNAME, ["ingress-target.com"], Owner("testing", "fake1"))]);
  }

  /** The second ingress of the target-annotation row: the target replaces its load-balancer address. */
  lemma AnnotatedSecond()
    ensures Contribution(Plain(NoFlags), Build(Item("testing", "fake2", ["example2.org"], [], ["8.8.8.8"], [], map[TargetKey := "ingress-target.com"])))
         == [Rec("example2.org", CNAME, ["ingress-target.com"], Owner("testing", "fake2"))]
  {
    var f := Item("testing", "fake2", ["example2.org"], [], ["8.8.8.8"], [], map[TargetKey := "ingress-target.com"]);
    ShortPlainName("example2.org");
    IngressTargetName();
    TargetOnlyKeys("ingress-target.com");
    TargetCname(Plain(NoFlags), f, "example2.org", "ingress-target.com");
    OpenContribution(Plain(NoFlags), Build(f), [Rec("example2.org", CNAME, ["ingress-target.com"], Owner("testing", "fake2"))]);
  }

  /** The third ingress of the target-annotation row: an address target gives an A record. */
  lemma AnnotatedThird()
    ensures Contribution(Plain(NoFlags), Build(Item("testing", "fake3", ["example3.org"], [], [], [], map[TargetKey := "1.2.3.4"])))
         == [Rec("example3.org", A, ["1.2.3.4"], Owner("testing", "fake3"))]
  {
    var f := Item("testing", "fake3", ["example3.org"], [], [], [], map[TargetKey := "1.2.3.4"]);
    ShortPlainName("example3.org");
    Address1234();
    TrimmedEntriesOfRows();
    TargetOnlyKeys("1.2.3.4");
    TargetA(Plain(NoFlags), f, "example3.org", "1.2.3.4");
    OpenContribution(Plain(NoFlags), Build(f), [Rec("example3.org", A, ["1.2.3.4"], Owner("testing", "fake3"))]);
  }

  /** source/ingress_test.go:797-846: the target annotation decides the records' targets and type. */
  lemma TargetAnnotation()
    ensures Endpoints(Plain(NoFlags),
                      [Build(Item("testing", "fake1", ["example.org"], [], [], [], map[TargetKey := "ingress-target.com"])),
                       Build(Item("testing", "fake2", ["example2.org"], [], ["8.8.8.8"], [], map[TargetKey := "ingress-target.com"])),
                       Build(Item("testing", "fake3", ["example3.org"], [], [], [], map[TargetKey := "1.2.3.4"]))])
         == Success([Rec("example.org", CNAME, ["ingress-target.com"], Owner("testing", "fake1")),
                     Rec("example2.org", CNAME, ["ingress-target.com"], Owner("testing", "fake2")),
                     Rec("example3.org", A, ["1.2.3.4"], Owner("testing", "fake3"))])
  {
    var r1 := Rec("example.org", CNAME, ["ingress-target.com"], Owner("testing", "fake1"));
    var r2 := Rec("example2.org", CNAME, ["ingress-target.com"], Owner("testing", "fake2"));
    var r3 := Rec("example3.org", A, ["1.2.3.4"], Owner("testing", "fake3"));
    AnnotatedFirst();
    AnnotatedSecond();
    AnnotatedThird();
    EndpointsThree(Plain(NoFlags),
                   Build(Item("testing", "fake1", ["example.org"], [], [], [], map[TargetKey := "ingress-target.com"])),
                   Build(Item("testing", "fake2", ["example2.org"], [], ["8.8.8.8"], [], map[TargetKey := "ingress-target.com"])),
                   Build(Item("testing", "fake3", ["example3.org"], [], [], [], map[TargetKey := "1.2.3.4"])),
                   [r1], [r2], [r3]);
    Join111(r1, r2, r3);
  }

  /** source/ingress_test.go:847-865: a TLS block's host gets a record. */
  lemma TlsSingleHost()
    ensures Endpoints(Plain(NoFlags), [Build(Item("testing", "fake1", [], [["example.org"]], ["1.2.3.4"], [], map[]))])
         == Success([Rec("example.org", A, ["1.2.3.4"], Owner("testing", "fake1"))])
  {
    var cfg := Plain(NoFlags);
    var f := Item("testing", "fake1", [], [["example.org"]], ["1.2.3.4"], [], map[]);
    var r := Rec("example.org", A, ["1.2.3.4"], Owner("testing", "fake1"));
    assert Contribution(cfg, Build(f)) == [r] by {
      ExampleOrgValid();
      Address1234();
      TlsOneA(cfg, f, "example.org", "1.2.3.4");
      OpenContribution(cfg, Build(f), [r]);
    }
    EndpointsOne(cfg, Build(f), [r]);
  }

  /** The records of the ingress of source/ingress_test.go:866-889: one per host of its TLS block. */
  lemma TlsBlockOfTwoHostsRecords()
    ensures IngressRecords(Plain(NoFlags), Build(Item("testing", "fake1", [], [["example.org", "example2.org"]], ["1.2.3.4"], [], map[])))
         == [Rec("example.org", A, ["1.2.3.4"], Owner("testing", "fake1")),
             Rec("example2.org", A, ["1.2.3.4"], Owner("testing", "fake1"))]
  {
    var cfg := Plain(NoFlags);
    var f := Item("testing", "fake1", [], [["example.org", "example2.org"]], ["1.2.3.4"], [], map[]);
    ExampleOrgValid();
    ShortPlainName("example2.org");
    Address1234();
    TlsTwoA(cfg, f, "example.org", "example2.org", "1.2.3.4");
  }

  /** source/ingress_test.go:866-889: every host of a TLS block gets a record, in block order. */
  lemma TlsBlockOfTwoHosts()
    ensures Endpoints(Plain(NoFlags), [Build(Item("testing", "fake1", [], [["example.org", "example2.org"]], ["1.2.3.4"], [], map[]))])
         == Success([Rec("example.org", A, ["1.2.3.4"], Owner("testing", "fake1")),
                     Rec("example2.org", A, ["1.2.3.4"], Owner("testing", "fake1"))])
  {
    var cfg := Plain(NoFlags);
    var f := Item("testing", "fake1", [], [["example.org", "example2.org"]], ["1.2.3.4"], [], map[]);
    var rs := [Rec("example.org", A, ["1.2.3.4"], Owner("testing", "fake1")),
               Rec("example2.org", A, ["1.2.3.4"], Owner("testing", "fake1"))];
    TlsBlockOfTwoHostsRecords();
    OpenContribution(cfg, Build(f), rs);
    EndpointsOne(cfg, Build(f), rs);
  }

  /** The records of the ingress of source/ingress_test.go:890-923: one per host of each TLS block. */
  lemma TlsBlocksOfTwoHostsRecords()
    ensures IngressRecords(Plain(NoFlags), Build(Item("testing", "fake1", [], [["example.org", "example2.org"], ["example3.org", "example4.org"]],
                ["1.2.3.4"], [], map[])))
         == [Rec("example.org", A, ["1.2.3.4"], Owner("testing", "fake1")),
             Rec("example2.org", A, ["1.2.3.4"], Owner("testing", "fake1")),
             Rec("example3.org", A, ["1.2.3.4"], Owner("testing", "fake1")),
             Rec("example4.org", A, ["1.2.3.4"], Owner("testing", "fake1"))]
  {
    var cfg := Plain(NoFlags);
    var f := Item("testing", "fake1", [], [["example.org", "example2.org"], ["example3.org", "example4.org"]],
                ["1.2.3.4"], [], map[]);
    ExampleOrgValid();
    ShortPlainName("example2.org");
    ShortPlainName("example3.org");
    ShortPlainName("example4.org");
    Address1234();
    TlsFourA(cfg, f, "example.org", "example2.org", "example3.org", "example4.org", "1.2.3.4");
  }

  /** source/ingress_test.go:890-923: the hosts of several TLS blocks, block after block. */
  lemma TlsBlocksOfTwoHosts()
    ensures Endpoints(Plain(NoFlags),
                      [Build(Item("testing", "fake1", [], [["example.org", "example2.org"], ["example3.org", "example4.org"]],
                                  ["1.2.3.4"], [], map[]))])
         == Success([Rec("example.org", A, ["1.2.3.4"], Owner("testing", "fake1")),
                     Rec("example2.org", A, ["1.2.3.4"], Owner("testing", "fake1")),
                     Rec("example3.org", A, ["1.2.3.4"], Owner("testing", "fake1")),
                     Rec("example4.org", A, ["1.2.3.4"], Owner("testing", "fake1"))])
  {
    var cfg := Plain(NoFlags);
    var f := Item("testing", "fake1", [], [["example.org", "example2.org"], ["example3.org", "example4.org"]],
                  ["1.2.3.4"], [], map[]);
    var rs := [Rec("example.org", A, ["1.2.3.4"], Owner("testing", "fake1")),
               Rec("example2.org", A, ["1.2.3.4"], Owner("testing", "fake1")),
               Rec("example3.org", A, ["1.2.3.4"], Owner("testing", "fake1")),
               Rec("example4.org", A, ["1.2.3.4"], Owner("testing", "fake1"))];
    TlsBlocksOfTwoHostsRecords();
    OpenContribution(cfg, Build(f), rs);
    EndpointsOne(cfg, Build(f), rs);
  }

  /** source/ingress_test.go:924-950: the hostname annotation's host follows the rule host. */
  lemma HostnameAnnotation()
    ensures Endpoints(Plain(NoFlags),
                      [Build(Item("testing", "fake1", ["example.org"], [], ["1.2.3.4"], [],
                                  map[HostnameKey := "dns-through-hostname.com"]))])
         == Success([Rec("example.org", A, ["1.2.3.4"], Owner("testing", "fake1")),
                     Rec("dns-through-hostname.com", A, ["1.2.3.4"], Owner("testing", "fake1"))])
  {
    HostnameAnnotationRecords();
    EndpointsOne(Plain(NoFlags),
                 Build(Item("testing", "fake1", ["example.org"], [], ["1.2.3.4"], [], map[HostnameKey := "dns-through-hostname.com"])),
                 [Rec("example.org", A, ["1.2.3.4"], Owner("testing", "fake1")),
                  Rec("dns-through-hostname.com", A, ["1.2.3.4"], Owner("testing", "fake1"))]);
  }

  /** The ingress of source/ingress_test.go:924-950: an A record for the rule host, then one for the annotation's host. */
  lemma HostnameAnnotationRecords()
    ensures Contribution(Plain(NoFlags),
                         Build(Item("testing", "fake1", ["example.org"], [], ["1.2.3.4"], [],
                                    map[HostnameKey := "dns-through-hostname.com"])))
         == [Rec("example.org", A, ["1.2.3.4"], Owner("testing", "fake1")),
             Rec("dns-through-hostname.com", A, ["1.2.3.4"], Owner("testing", "fake1"))]
  {
    var cfg := Plain(NoFlags);
    var f := Item("testing", "fake1", ["example.org"], [], ["1.2.3.4"], [], map[HostnameKey := "dns-through-hostname.com"]);
    var rs := [Rec("example.org", A, ["1.2.3.4"], Owner("testing", "fake1")),
               Rec("dns-through-hostname.com", A, ["1.2.3.4"], Owner("testing", "fake1"))];
    ExampleOrgValid();
    DnsThroughHostnameValid();
    Address1234();
    TrimmedEntriesOfRows();
    HostnameKeysControlled("dns-through-hostname.com", "");
    AnnotatedHostA(f, "example.org", "dns-through-hostname.com", "1.2.3.4");
    HostnameA(cfg, f, "example.org", "dns-through-hostname.com", "1.2.3.4");
    OpenContribution(cfg, Build(f), rs);
  }

  /** The records of the one ingress of the row at source/ingress_test.go:951-982, its annotation value written as the two names joined. */
  lemma TwoAnnotatedHostsRecords()
    ensures IngressRecords(Plain(NoFlags),
                           Build(Item("testing", "fake1", ["example.org"], [], ["1.2.3.4"], [],
                                      map[HostnameKey := "dns-through-hostname.com" + ", " + "another-dns-through-hostname.com"])))
         == [Rec("example.org", A, ["1.2.3.4"], Owner("testing", "fake1")),
             Rec("dns-through-hostname.com", A, ["1.2.3.4"], Owner("testing", "fake1")),
             Rec("another-dns-through-hostname.com", A, ["1.2.3.4"], Owner("testing", "fake1"))]
  {
    ExampleOrgValid();
    DnsThroughHostnameValid();
    ShortPlainName("another-dns-through-hostname.com");
    Address1234();
    TrimmedEntriesOfRows();
    TwoAnnotatedHostsA(Item("testing", "fake1", ["example.org"], [], ["1.2.3.4"], [],
                            map[HostnameKey := "dns-through-hostname.com" + ", " + "another-dns-through-hostname.com"]),
                       "example.org", "dns-through-hostname.com", "another-dns-through-hostname.com", "1.2.3.4");
    HostnamesA(Plain(NoFlags),
               Item("testing", "fake1", ["example.org"], [], ["1.2.3.4"], [],
                    map[HostnameKey := "dns-through-hostname.com" + ", " + "another-dns-through-hostname.com"]),
               "example.org", "dns-through-hostname.com", "another-dns-through-hostname.com", "1.2.3.4");
  }

  /** The one ingress of the row at source/ingress_test.go:951-982 passes every gate. */
  lemma TwoAnnotatedHostsIngress()
    ensures Contribution(Plain(NoFlags),
                         Build(Item("testing", "fake1", ["example.org"], [], ["1.2.3.4"], [],
                                    map[HostnameKey := "dns-through-hostname.com" + ", " + "another-dns-through-hostname.com"])))
         == [Rec("example.org", A, ["1.2.3.4"], Owner("testing", "fake1")),
             Rec("dns-through-hostname.com", A, ["1.2.3.4"], Owner("testing", "fake1")),
             Rec("another-dns-through-hostname.com", A, ["1.2.3.4"], Owner("testing", "fake1"))]
  {
    TwoAnnotatedHostsRecords();
    HostnameKeysControlled("dns-through-hostname.com" + ", " + "another-dns-through-hostname.com", "");
    OpenContribution(Plain(NoFlags),
                     Build(Item("testing", "fake1", ["example.org"], [], ["1.2.3.4"], [],
                                map[HostnameKey := "dns-through-hostname.com" + ", " + "another-dns-through-hostname.com"])),
                     [Rec("example.org", A, ["1.2.3.4"], Owner("testing", "fake1")),
                      Rec("dns-through-hostname.com", A, ["1.2.3.4"], Owner("testing", "fake1")),
                      Rec("another-dns-through-hostname.com", A, ["1.2.3.4"], Owner("testing", "fake1"))]);
  }

  /** source/ingress_test.go:951-982: the annotation's hosts follow the rule host in the order listed. */
  lemma HostnameAnnotationOfTwoHosts()
    ensures Endpoints(Plain(NoFlags),
                      [Build(Item("testing", "fake1", ["example.org"], [], ["1.2.3.4"], [],
                                  map[HostnameKey := "dns-through-hostname.com, another-dns-through-hostname.com"]))])
         == Success([Rec("example.org", A, ["1.2.3.4"], Owner("testing", "fake1")),
                     Rec("dns-through-hostname.com", A, ["1.2.3.4"], Owner("testing", "fake1")),
                     Rec("another-dns-through-hostname.com", A, ["1.2.3.4"], Owner("testing", "fake1"))])
  {
    TwoHostsText();
    TwoAnnotatedHostsIngress();
    EndpointsOne(Plain(NoFlags),
                 Build(Item("testing", "fake1", ["example.org"], [], ["1.2.3.4"], [],
                            map[HostnameKey := "dns-through-hostname.com, another-dns-through-hostname.com"])),
                 [Rec("example.org", A, ["1.2.3.4"], Owner("testing", "fake1")),
                  Rec("dns-through-hostname.com", A, ["1.2.3.4"], Owner("testing", "fake1")),
                  Rec("another-dns-through-hostname.com", A, ["1.2.3.4"], Owner("testing", "fake1"))]);
  }

  /** source/ingress_test.go:983-1010: the target annotation applies to the annotation's hosts as well. */
  lemma HostnameAndTargetAnnotations()
    ensures Endpoints(Plain(NoFlags),
                      [Build(Item("testing", "fake1", ["example.org"], [], [], [],
                                  map[HostnameKey := "dns-through-hostname.com", TargetKey := "ingress-target.com"]))])
         == Success([Rec("example.org", CNAME, ["ingress-target.com"], Owner("testing", "fake1")),
                     Rec("dns-through-hostname.com", CNAME, ["ingress-target.com"], Owner("testing", "fake1"))])
  {
    HostnameAndTargetRecords();
    EndpointsOne(Plain(NoFlags),
                 Build(Item("testing", "fake1", ["example.org"], [], [], [],
                            map[HostnameKey := "dns-through-hostname.com", TargetKey := "ingress-target.com"])),
                 [Rec("example.org", CNAME, ["ingress-target.com"], Owner("testing", "fake1")),
                  Rec("dns-through-hostname.com", CNAME, ["ingress-target.com"], Owner("testing", "fake1"))]);
  }

  /** The ingress of source/ingress_test.go:983-1010: a CNAME record for each of its two hosts. */
  lemma HostnameAndTargetRecords()
    ensures Contribution(Plain(NoFlags),
                         Build(Item("testing", "fake1", ["example.org"], [], [], [],
                                    map[HostnameKey := "dns-through-hostname.com", TargetKey := "ingress-target.com"])))
         == [Rec("example.org", CNAME, ["ingress-target.com"], Owner("testing", "fake1")),
             Rec("dns-through-hostname.com", CNAME, ["ingress-target.com"], Owner("testing", "fake1"))]
  {
    var cfg := Plain(NoFlags);
    var f := Item("testing", "fake1", ["example.org"], [], [], [],
                  map[HostnameKey := "dns-through-hostname.com", TargetKey := "ingress-target.com"]);
    var rs := [Rec("example.org", CNAME, ["ingress-target.com"], Owner("testing", "fake1")),
               Rec("dns-through-hostname.com", CNAME, ["ingress-target.com"], Owner("testing", "fake1"))];
    ExampleOrgValid();
    DnsThroughHostnameValid();
    IngressTargetName();
    TrimmedEntriesOfRows();
    HostnameKeysControlled("dns-through-hostname.com", "ingress-target.com");
    HostnameTargetCname(cfg, f, "example.org", "dns-through-hostname.com", "ingress-target.com");
    OpenContribution(cfg, Build(f), rs);
  }

  /** An ingress of the custom TTL row: plain digits. */
  lemma TtlFirst()
    ensures Contribution(Plain(NoFlags), Build(Item("testing", "fake1", ["example.org"], [], [], [],
                                                   map[TargetKey := "ingress-target.com", TtlKey := "6"])))
         == [Endpoint("example.org", CNAME, ["ingress-target.com"], Some(6), [], ResourceLabels(Owner("testing", "fake1")))]
  {
    var f := Item("testing", "fake1", ["example.org"], [], [], [], map[TargetKey := "ingress-target.com", TtlKey := "6"]);
    ExampleOrgValid();
    IngressTargetName();
    TtlValuesOfRow();
    TargetPairControlled("ingress-target.com", TtlKey, "6");
    TargetTtlCname(Plain(NoFlags), f, "example.org", "ingress-target.com", "6", 6);
    OpenContribution(Plain(NoFlags), Build(f),
                     [Endpoint("example.org", CNAME, ["ingress-target.com"], Some(6), [], ResourceLabels(Owner("testing", "fake1")))]);
  }

  /** An ingress of the custom TTL row: one second. */
  lemma TtlSecond()
    ensures Contribution(Plain(NoFlags), Build(Item("testing", "fake2", ["example2.org"], [], ["8.8.8.8"], [],
                                                   map[TargetKey := "ingress-target.com", TtlKey := "1"])))
         == [Endpoint("example2.org", CNAME, ["ingress-target.com"], Some(1), [], ResourceLabels(Owner("testing", "fake2")))]
  {
    var f := Item("testing", "fake2", ["example2.org"], [], ["8.8.8.8"], [], map[TargetKey := "ingress-target.com", TtlKey := "1"]);
    ShortPlainName("example2.org");
    IngressTargetName();
    TtlValuesOfRow();
    TargetPairControlled("ingress-target.com", TtlKey, "1");
    TargetTtlCname(Plain(NoFlags), f, "example2.org", "ingress-target.com", "1", 1);
    OpenContribution(Plain(NoFlags), Build(f),
                     [Endpoint("example2.org", CNAME, ["ingress-target.com"], Some(1), [], ResourceLabels(Owner("testing", "fake2")))]);
  }

  /** An ingress of the custom TTL row: a duration in seconds. */
  lemma TtlThird()
    ensures Contribution(Plain(NoFlags), Build(Item("testing", "fake3", ["example3.org"], [], ["8.8.4.4"], [],
                                                   map[TargetKey := "ingress-target.com", TtlKey := "10s"])))
         == [Endpoint("example3.org", CNAME, ["ingress-target.com"], Some(10), [], ResourceLabels(Owner("testing", "fake3")))]
  {
    var f := Item("testing", "fake3", ["example3.org"], [], ["8.8.4.4"], [], map[TargetKey := "ingress-target.com", TtlKey := "10s"]);
    ShortPlainName("example3.org");
    IngressTargetName();
    TtlValuesOfRow();
    TargetPairControlled("ingress-target.com", TtlKey, "10s");
    TargetTtlCname(Plain(NoFlags), f, "example3.org", "ingress-target.com", "10s", 10);
    OpenContribution(Plain(NoFlags), Build(f),
                     [Endpoint("example3.org", CNAME, ["ingress-target.com"], Some(10), [], ResourceLabels(Owner("testing", "fake3")))]);
  }

  /** source/ingress_test.go:1011-1066: the TTL annotation, as digits or as seconds, sets each record's TTL. */
  lemma CustomTtl()
    ensures Endpoints(Plain(NoFlags),
                      [Build(Item("testing", "fake1", ["example.org"], [], [], [], map[TargetKey := "ingress-target.com", TtlKey := "6"])),
                       Build(Item("testing", "fake2", ["example2.org"], [], ["8.8.8.8"], [], map[TargetKey := "ingress-target.com", TtlKey := "1"])),
                       Build(Item("testing", "fake3", ["example3.org"], [], ["8.8.4.4"], [], map[TargetKey := "ingress-target.com", TtlKey := "10s"]))])
         == Success([Endpoint("example.org", CNAME, ["ingress-target.com"], Some(6), [], ResourceLabels(Owner("testing", "fake1"))),
                     Endpoint("example2.org", CNAME, ["ingress-target.com"], Some(1), [], ResourceLabels(Owner("testing", "fake2"))),
                     Endpoint("example3.org", CNAME, ["ingress-target.com"], Some(10), [], ResourceLabels(Owner("testing", "fake3")))])
  {
    TtlFirst();
    TtlSecond();
    TtlThird();
    EndpointsThree(Plain(NoFlags),
                   Build(Item("testing", "fake1", ["example.org"], [], [], [], map[TargetKey := "ingress-target.com", TtlKey := "6"])),
                   Build(Item("testing", "fake2", ["example2.org"], [], ["8.8.8.8"], [], map[TargetKey := "ingress-target.com", TtlKey := "1"])),
                   Build(Item("testing", "fake3", ["example3.org"], [], ["8.8.4.4"], [], map[TargetKey := "ingress-target.com", TtlKey := "10s"])),
                   [Endpoint("example.org", CNAME, ["ingress-target.com"], Some(6), [], ResourceLabels(Owner("testing", "fake1")))], [Endpoint("example2.org", CNAME, ["ingress-target.com"], Some(1), [], ResourceLabels(Owner("testing", "fake2")))], [Endpoint("example3.org", CNAME, ["ingress-target.com"], Some(10), [], ResourceLabels(Owner("testing", "fake3")))]);
    Join111(Endpoint("example.org", CNAME, ["ingress-target.com"], Some(6), [], ResourceLabels(Owner("testing", "fake1"))), Endpoint("example2.org", CNAME, ["ingress-target.com"], Some(1), [], ResourceLabels(Owner("testing", "fake2"))), Endpoint("example3.org", CNAME, ["ingress-target.com"], Some(10), [], ResourceLabels(Owner("testing", "fake3"))));
  }

  /** source/ingress_test.go:1067-1092: an alias flag set to true marks the record as an alias. */
  lemma AliasTrue()
    ensures Endpoints(Plain(NoFlags),
                      [Build(Item("testing", "fake1", ["example.org"], [], [], [],
                                  map[TargetKey := "ingress-target.com", AliasKey := "true"]))])
         == Success([Endpoint("example.org", CNAME, ["ingress-target.com"], None, [AliasProperty],
                              ResourceLabels(Owner("testing", "fake1")))])
  {
    var cfg := Plain(NoFlags);
    var f := Item("testing", "fake1", ["example.org"], [], [], [], map[TargetKey := "ingress-target.com", AliasKey := "true"]);
    var r := Full("example.org", CNAME, ["ingress-target.com"], None, true, Owner("testing", "fake1"));
    assert Contribution(cfg, Build(f)) == [r] by {
      ExampleOrgValid();
      IngressTargetName();
      AliasValues();
      TargetPairControlled("ingress-target.com", AliasKey, "true");
      TargetAliasCname(cfg, f, "example.org", "ingress-target.com", "true", true);
      OpenContribution(cfg, Build(f), [r]);
    }
    EndpointsOne(cfg, Build(f), [r]);
  }

  /** source/ingress_test.go:1093-1115: an alias flag set to false leaves the record plain. */
  lemma AliasFalse()
    ensures Endpoints(Plain(NoFlags),
                      [Build(Item("testing", "fake1", ["example.org"], [], [], [],
                                  map[TargetKey := "ingress-target.com", AliasKey := "false"]))])
         == Success([Endpoint("example.org", CNAME, ["ingress-target.com"], None, [],
                              ResourceLabels(Owner("testing", "fake1")))])
  {
    var cfg := Plain(NoFlags);
    var f := Item("testing", "fake1", ["example.org"], [], [], [], map[TargetKey := "ingress-target.com", AliasKey := "false"]);
    var r := Full("example.org", CNAME, ["ingress-target.com"], None, false, Owner("testing", "fake1"));
    assert Contribution(cfg, Build(f)) == [r] by {
      ExampleOrgValid();
      IngressTargetName();
      AliasValues();
      TargetPairControlled("ingress-target.com", AliasKey, "false");
      TargetAliasCname(cfg, f, "example.org", "ingress-target.com", "false", false);
      OpenContribution(cfg, Build(f), [r]);
    }
    EndpointsOne(cfg, Build(f), [r]);
  }

  /** The first ingress of the templated target row: its templated name, a CNAME to the target. */
  lemma TemplatedFirst()
    ensures Contribution(Templated(OneName(DnsSuffix), false), Build(Item("testing", "fake1", [], [], [], [], map[TargetKey := "ingress-target.com"])))
         == [Rec("fake1.ext-dns.test.com", CNAME, ["ingress-target.com"], Owner("testing", "fake1"))]
  {
    var cfg := Templated(OneName(DnsSuffix), false);
    var f := Item("testing", "fake1", [], [], [], [], map[TargetKey := "ingress-target.com"]);
    ShortPlainName("fake1.ext-dns.test.com");
    IngressTargetName();
    TargetOnlyKeys("ingress-target.com");
    SuffixesAreNameEntries();
    Fake1Names();
    TemplateTargetCname(cfg, f, DnsSuffix, "fake1.ext-dns.test.com", "ingress-target.com");
    OpenContribution(cfg, Build(f), [Rec("fake1.ext-dns.test.com", CNAME, ["ingress-target.com"], Owner("testing", "fake1"))]);
  }

  /** The second ingress of the templated target row: the target replaces its load-balancer address. */
  lemma TemplatedSecond()
    ensures Contribution(Templated(OneName(DnsSuffix), false), Build(Item("testing", "fake2", [], [], ["8.8.8.8"], [], map[TargetKey := "ingress-target.com"])))
         == [Rec("fake2.ext-dns.test.com", CNAME, ["ingress-target.com"], Owner("testing", "fake2"))]
  {
    var cfg := Templated(OneName(DnsSuffix), false);
    var f := Item("testing", "fake2", [], [], ["8.8.8.8"], [], map[TargetKey := "ingress-target.com"]);
    ShortPlainName("fake2.ext-dns.test.com");
    IngressTargetName();
    TargetOnlyKeys("ingress-target.com");
    SuffixesAreNameEntries();
    Fake2Names();
    TemplateTargetCname(cfg, f, DnsSuffix, "fake2.ext-dns.test.com", "ingress-target.com");
    OpenContribution(cfg, Build(f), [Rec("fake2.ext-dns.test.com", CNAME, ["ingress-target.com"], Owner("testing", "fake2"))]);
  }

  /** The third ingress of the templated target row: an address target gives an A record. */
  lemma TemplatedThird()
    ensures Contribution(Templated(OneName(DnsSuffix), false), Build(Item("testing", "fake3", [], [], [], [], map[TargetKey := "1.2.3.4"])))
         == [Rec("fake3.ext-dns.test.com", A, ["1.2.3.4"], Owner("testing", "fake3"))]
  {
    var cfg := Templated(OneName(DnsSuffix), false);
    var f := Item("testing", "fake3", [], [], [], [], map[TargetKey := "1.2.3.4"]);
    ShortPlainName("fake3.ext-dns.test.com");
    Address1234();
    TrimmedEntriesOfRows();
    TargetOnlyKeys("1.2.3.4");
    SuffixesAreNameEntries();
    Fake3Name();
    TemplateTargetA(cfg, f, DnsSuffix, "fake3.ext-dns.test.com", "1.2.3.4");
    OpenContribution(cfg, Build(f), [Rec("fake3.ext-dns.test.com", A, ["1.2.3.4"], Owner("testing", "fake3"))]);
  }

  /** source/ingress_test.go:1116-1168: templated names take the target annotation's targets. */
  lemma TemplateWithTargetAnnotation()
    ensures Endpoints(Templated(OneName(DnsSuffix), false),
                      [Build(Item("testing", "fake1", [], [], [], [], map[TargetKey := "ingress-target.com"])),
                       Build(Item("testing", "fake2", [], [], ["8.8.8.8"], [], map[TargetKey := "ingress-target.com"])),
                       Build(Item("testing", "fake3", [], [], [], [], map[TargetKey := "1.2.3.4"]))])
         == Success([Rec("fake1.ext-dns.test.com", CNAME, ["ingress-target.com"], Owner("testing", "fake1")),
                     Rec("fake2.ext-dns.test.com", CNAME, ["ingress-target.com"], Owner("testing", "fake2")),
                     Rec("fake3.ext-dns.test.com", A, ["1.2.3.4"], Owner("testing", "fake3"))])
  {
    var r1 := Rec("fake1.ext-dns.test.com", CNAME, ["ingress-target.com"], Owner("testing", "fake1"));
    var r2 := Rec("fake2.ext-dns.test.com", CNAME, ["ingress-target.com"], Owner("testing", "fake2"));
    var r3 := Rec("fake3.ext-dns.test.com", A, ["1.2.3.4"], Owner("testing", "fake3"));
    TemplatedFirst();
    TemplatedSecond();
    TemplatedThird();
    EndpointsThree(Templated(OneName(DnsSuffix), false),
                   Build(Item("testing", "fake1", [], [], [], [], map[TargetKey := "ingress-target.com"])),
                   Build(Item("testing", "fake2", [], [], ["8.8.8.8"], [], map[TargetKey := "ingress-target.com"])),
                   Build(Item("testing", "fake3", [], [], [], [], map[TargetKey := "1.2.3.4"])),
                   [r1], [r2], [r3]);
    Join111(r1, r2, r3);
  }

  /** source/ingress_test.go:1169-1186: an empty target annotation leaves the ingress without records, template or not. */
  lemma EmptyTargetAnnotation()
    ensures Endpoints(Templated(OneName(DnsSuffix), false),
                      [Build(Item("testing", "fake1", [], [], [], [], map[TargetKey := ""]))])
         == Success([])
  {
    var cfg := Templated(OneName(DnsSuffix), false);
    var f := Item("testing", "fake1", [], [], [], [], map[TargetKey := ""]);
    TargetOnlyKeys("");
    EmptyTarget(cfg, f);
    OpenContribution(cfg, Build(f), []);
    EndpointsOne(cfg, Build(f), []);
  }

  /** The ingress with the hostname annotation, when the annotation is ignored: only its rule host. */
  lemma IgnoredAnnotationIngress()
    ensures Contribution(Plain(Flags(true, false, false)),
                         Build(Item("testing", "fake2", ["new.org"], [], [], ["lb.com"], map[HostnameKey := "dns-through-hostname.com"])))
         == [Rec("new.org", CNAME, ["lb.com"], Owner("testing", "fake2"))]
  {
    var cfg := Plain(Flags(true, false, false));
    var f := Item("testing", "fake2", ["new.org"], [], [], ["lb.com"], map[HostnameKey := "dns-through-hostname.com"]);
    ShortPlainName("new.org");
    HostnameOnlyKeys("dns-through-hostname.com");
    HostnameKeysControlled("dns-through-hostname.com", "");
    OwnCname(cfg, f, "new.org", "lb.com");
    OpenContribution(cfg, Build(f), [Rec("new.org", CNAME, ["lb.com"], Owner("testing", "fake2"))]);
  }

  /** source/ingress_test.go:1187-1220: ignoring the hostname annotation leaves only the rule hosts. */
  lemma IgnoreHostnameAnnotation()
    ensures Endpoints(Plain(Flags(true, false, false)),
                      [Build(Item("testing", "fake1", ["example.org"], [], ["8.8.8.8"], [], map[])),
                       Build(Item("testing", "fake2", ["new.org"], [], [], ["lb.com"], map[HostnameKey := "dns-through-hostname.com"]))])
         == Success([Rec("example.org", A, ["8.8.8.8"], Owner("testing", "fake1")),
                     Rec("new.org", CNAME, ["lb.com"], Owner("testing", "fake2"))])
  {
    var cfg := Plain(Flags(true, false, false));
    var f1 := Item("testing", "fake1", ["example.org"], [], ["8.8.8.8"], [], map[]);
    var r1 := Rec("example.org", A, ["8.8.8.8"], Owner("testing", "fake1"));
    var r2 := Rec("new.org", CNAME, ["lb.com"], Owner("testing", "fake2"));
    assert Contribution(cfg, Build(f1)) == [r1] by {
      ExampleOrgValid();
      Address8888();
      OwnA(cfg, f1, "example.org", "8.8.8.8");
      OpenContribution(cfg, Build(f1), [r1]);
    }
    IgnoredAnnotationIngress();
    EndpointsTwo(cfg, Build(f1),
                 Build(Item("testing", "fake2", ["new.org"], [], [], ["lb.com"], map[HostnameKey := "dns-through-hostname.com"])),
                 [r1], [r2]);
    Join11(r1, r2);
  }

  /** source/ingress_test.go:1221-1234: ignoring the TLS sections leaves a TLS-only ingress without records. */
  lemma IgnoreTls()
    ensures Endpoints(Plain(Flags(false, true, false)), [Build(Item("testing", "fake1", [], [["example.org"]], ["1.2.3.4"], [], map[]))])
         == Success([])
  {
    var cfg := Plain(Flags(false, true, false));
    var f := Item("testing", "fake1", [], [["example.org"]], ["1.2.3.4"], [], map[]);
    OwnNothing(cfg, f);
    OpenContribution(cfg, Build(f), []);
    EndpointsOne(cfg, Build(f), []);
  }

  /** source/ingress_test.go:1235-1254: reading the TLS sections, their hosts get records. */
  lemma ReadTls()
    ensures Endpoints(Plain(NoFlags), [Build(Item("testing", "fake1", [], [["example.org"]], ["1.2.3.4"], [], map[]))])
         == Success([Rec("example.org", A, ["1.2.3.4"], Owner("testing", "fake1"))])
  {
    TlsSingleHost();
  }

  /** The configuration of the class-name row. */
  function ClassCfg(): Config
  {
    Gated("", NoFilter, Everything, ["public", "dmz"])
  }

  /** An ingress of the class-name row that passes the class gate. */
  lemma ClassMember(f: FakeIngress, host: string, ip: string)
    requires f.dnsnames == [] && f.tlsdnsnames == [[host]] && f.ips == [ip] && f.hostnames == []
    requires NoRecordKeys(f.annotations) && ControlledByUs(f.annotations) && f.labels == map[]
    requires ClassAdmits(ClassCfg().ingressClassNames, Build(f))
    requires PlainValid(host) && Classify(ip) == IPv4
    ensures Contribution(ClassCfg(), Build(f)) == [Rec(host, A, [ip], Owner(f.namespace, f.name))]
  {
    TlsOneA(ClassCfg(), f, host, ip);
    assert Matches([], map[]);
    Admit(ClassCfg(), Build(f), [Rec(host, A, [ip], Owner(f.namespace, f.name))]);
  }

  const NoClass: FakeIngress := FakeIngress([], [["none.example.org"]], ["1.0.0.0"], [], "testing", "none", map[], map[], "")

  const PublicClass: FakeIngress := FakeIngress([], [["example.org"]], ["1.2.3.4"], [], "testing", "fake-public", map[], map[], "public")

  const InternalClass: FakeIngress := FakeIngress([], [["int.example.org"]], ["2.3.4.5"], [], "testing", "fake-internal", map[], map[], "internal")

  const DmzClass: FakeIngress := FakeIngress([], [["dmz.example.org"]], ["3.4.5.6"], [], "testing", "fake-dmz", map[], map[], "dmz")

  const AnnotatedDmz: FakeIngress := FakeIngress([], [["annodmz.example.org"]], ["4.5.6.7"], [], "testing", "annotated-dmz", map[IngressClassKey := "dmz"], map[], "")

  const InternalAnnotatedDmz: FakeIngress := FakeIngress([], [["int-annodmz.example.org"]], ["5.6.7.8"], [], "testing", "fake-internal-annotated-dmz", map[IngressClassKey := "dmz"], map[], "internal")

  const DmzAnnotatedInternal: FakeIngress := FakeIngress([], [["dmz-annoint.example.org"]], ["6.7.8.9"], [], "testing", "fake-dmz-annotated-internal", map[IngressClassKey := "internal"], map[], "dmz")

  const EmptyAnnotatedDmz: FakeIngress := FakeIngress([], [["empty-annotdmz.example.org"]], ["7.8.9.0"], [], "testing", "empty-annotated-dmz", map[IngressClassKey := "dmz"], map[], "")

  const EmptyAnnotatedInternal: FakeIngress := FakeIngress([], [["empty-annotint.example.org"]], ["8.9.0.1"], [], "testing", "empty-annotated-internal", map[IngressClassKey := "internal"], map[], "")

  lemma NoClassExcluded()
    ensures Contribution(ClassCfg(), Build(NoClass)) == []
  {
    assert !ClassAdmits(ClassCfg().ingressClassNames, Build(NoClass));
    Exclude(ClassCfg(), Build(NoClass));
  }

  lemma PublicClassAdmitted()
    ensures Contribution(ClassCfg(), Build(PublicClass)) == [Rec("example.org", A, ["1.2.3.4"], Owner("testing", "fake-public"))]
  {
    ExampleOrgValid();
    Address1234();
    KeyLengths();
    ClassMember(PublicClass, "example.org", "1.2.3.4");
  }

  lemma InternalClassExcluded()
    ensures Contribution(ClassCfg(), Build(InternalClass)) == []
  {
    assert !ClassAdmits(ClassCfg().ingressClassNames, Build(InternalClass));
    Exclude(ClassCfg(), Build(InternalClass));
  }

  lemma DmzClassAdmitted()
    ensures Contribution(ClassCfg(), Build(DmzClass)) == [Rec("dmz.example.org", A, ["3.4.5.6"], Owner("testing", "fake-dmz"))]
  {
    ShortPlainName("dmz.example.org");
    Address3456();
    KeyLengths();
    ClassMember(DmzClass, "dmz.example.org", "3.4.5.6");
  }

  lemma AnnotatedDmzAdmitted()
    ensures Contribution(ClassCfg(), Build(AnnotatedDmz)) == [Rec("annodmz.example.org", A, ["4.5.6.7"], Owner("testing", "annotated-dmz"))]
  {
    ShortPlainName("annodmz.example.org");
    Address4567();
    ClassOnlyKeys("dmz");
    ClassMember(AnnotatedDmz, "annodmz.example.org", "4.5.6.7");
  }

  lemma InternalAnnotatedDmzExcluded()
    ensures Contribution(ClassCfg(), Build(InternalAnnotatedDmz)) == []
  {
    assert !ClassAdmits(ClassCfg().ingressClassNames, Build(InternalAnnotatedDmz));
    Exclude(ClassCfg(), Build(InternalAnnotatedDmz));
  }

  lemma DmzAnnotatedInternalAdmitted()
    ensures Contribution(ClassCfg(), Build(DmzAnnotatedInternal)) == [Rec("dmz-annoint.example.org", A, ["6.7.8.9"], Owner("testing", "fake-dmz-annotated-internal"))]
  {
    ShortPlainName("dmz-annoint.example.org");
    Address6789();
    ClassOnlyKeys("internal");
    ClassMember(DmzAnnotatedInternal, "dmz-annoint.example.org", "6.7.8.9");
  }

  lemma EmptyAnnotatedDmzAdmitted()
    ensures Contribution(ClassCfg(), Build(EmptyAnnotatedDmz)) == [Rec("empty-annotdmz.example.org", A, ["7.8.9.0"], Owner("testing", "empty-annotated-dmz"))]
  {
    ShortPlainName("empty-annotdmz.example.org");
    Address7890();
    ClassOnlyKeys("dmz");
    ClassMember(EmptyAnnotatedDmz, "empty-annotdmz.example.org", "7.8.9.0");
  }

  lemma EmptyAnnotatedInternalExcluded()
    ensures Contribution(ClassCfg(), Build(EmptyAnnotatedInternal)) == []
  {
    assert !ClassAdmits(ClassCfg().ingressClassNames, Build(EmptyAnnotatedInternal));
    Exclude(ClassCfg(), Build(EmptyAnnotatedInternal));
  }

  lemma JoinClassRow<T>(a: T, b: T, c: T, d: T, e: T)
    ensures [] + [a] + [] + [b] + [c] + [] + [d] + [e] + [] == [a, b, c, d, e]
  {
  }

  /**
   * source/ingress_test.go:1255-1365: a list of class names keeps the ingresses
   * of those classes; the class field is read first, the legacy annotation
   * only when the field is empty.
   */
  lemma IngressClassNames()
    ensures Endpoints(ClassCfg(), [Build(NoClass), Build(PublicClass), Build(InternalClass), Build(DmzClass), Build(AnnotatedDmz),
                                   Build(InternalAnnotatedDmz), Build(DmzAnnotatedInternal), Build(EmptyAnnotatedDmz),
                                   Build(EmptyAnnotatedInternal)])
         == Success([Rec("example.org", A, ["1.2.3.4"], Owner("testing", "fake-public")),
                     Rec("dmz.example.org", A, ["3.4.5.6"], Owner("testing", "fake-dmz")),
                     Rec("annodmz.example.org", A, ["4.5.6.7"], Owner("testing", "annotated-dmz")),
                     Rec("dmz-annoint.example.org", A, ["6.7.8.9"], Owner("testing", "fake-dmz-annotated-internal")),
                     Rec("empty-annotdmz.example.org", A, ["7.8.9.0"], Owner("testing", "empty-annotated-dmz"))])
  {
    NoClassExcluded();
    PublicClassAdmitted();
    InternalClassExcluded();
    DmzClassAdmitted();
    AnnotatedDmzAdmitted();
    InternalAnnotatedDmzExcluded();
    DmzAnnotatedInternalAdmitted();
    EmptyAnnotatedDmzAdmitted();
    EmptyAnnotatedInternalExcluded();
    EndpointsNine(ClassCfg(), Build(NoClass), Build(PublicClass), Build(InternalClass), Build(DmzClass), Build(AnnotatedDmz),
                  Build(InternalAnnotatedDmz), Build(DmzAnnotatedInternal), Build(EmptyAnnotatedDmz), Build(EmptyAnnotatedInternal),
                  [],
                  [Rec("example.org", A, ["1.2.3.4"], Owner("testing", "fake-public"))],
                  [],
                  [Rec("dmz.example.org", A, ["3.4.5.6"], Owner("testing", "fake-dmz"))],
                  [Rec("annodmz.example.org", A, ["4.5.6.7"], Owner("testing", "annotated-dmz"))],
                  [],
                  [Rec("dmz-annoint.example.org", A, ["6.7.8.9"], Owner("testing", "fake-dmz-annotated-internal"))],
                  [Rec("empty-annotdmz.example.org", A, ["7.8.9.0"], Owner("testing", "empty-annotated-dmz"))],
                  []);
    JoinClassRow(Rec("example.org", A, ["1.2.3.4"], Owner("testing", "fake-public")),
                 Rec("dmz.example.org", A, ["3.4.5.6"], Owner("testing", "fake-dmz")),
                 Rec("annodmz.example.org", A, ["4.5.6.7"], Owner("testing", "annotated-dmz")),
                 Rec("dmz-annoint.example.org", A, ["6.7.8.9"], Owner("testing", "fake-dmz-annotated-internal")),
                 Rec("empty-annotdmz.example.org", A, ["7.8.9.0"], Owner("testing", "empty-annotated-dmz")));
  }

  /** source/ingress_test.go:1366-1386: a label selector keeps an ingress whose labels match it. */
  lemma MatchingLabels()
    ensures Endpoints(Gated("", NoFilter, [Equals("app", "web-external")], []),
                      [Build(FakeIngress(["example.org"], [], ["8.8.8.8"], [], "testing", "fake1", map[], map["app" := "web-external", "name" := "reverse-proxy"], ""))])
         == Success([Rec("example.org", A, ["8.8.8.8"], Owner("testing", "fake1"))])
  {
    var cfg := Gated("", NoFilter, [Equals("app", "web-external")], []);
    var f := FakeIngress(["example.org"], [], ["8.8.8.8"], [], "testing", "fake1", map[], map["app" := "web-external", "name" := "reverse-proxy"], "");
    var r := Rec("example.org", A, ["8.8.8.8"], Owner("testing", "fake1"));
    MatchingLabelsRecords();
    PairSelector("app", "web-external", map["app" := "web-external", "name" := "reverse-proxy"]);
    Admit(cfg, Build(f), [r]);
    EndpointsOne(cfg, Build(f), [r]);
  }

  /** The records of the labelled ingress of source/ingress_test.go:1366-1386. */
  lemma MatchingLabelsRecords()
    ensures IngressRecords(Gated("", NoFilter, [Equals("app", "web-external")], []),
                           Build(FakeIngress(["example.org"], [], ["8.8.8.8"], [], "testing", "fake1", map[], map["app" := "web-external", "name" := "reverse-proxy"], "")))
         == [Rec("example.org", A, ["8.8.8.8"], Owner("testing", "fake1"))]
  {
    ExampleOrgValid();
    Address8888();
    OwnA(Gated("", NoFilter, [Equals("app", "web-external")], []),
         FakeIngress(["example.org"], [], ["8.8.8.8"], [], "testing", "fake1", map[], map["app" := "web-external", "name" := "reverse-proxy"], ""),
         "example.org", "8.8.8.8");
  }

  /** source/ingress_test.go:1387-1403: a label selector drops an ingress whose labels do not match it. */
  lemma NonMatchingLabels()
    ensures Endpoints(Gated("", NoFilter, [Equals("app", "web-external")], []),
                      [Build(FakeIngress(["example.org"], [], ["8.8.8.8"], [], "testing", "fake1", map[], map["app" := "web-internal", "name" := "reverse-proxy"], ""))])
         == Success([])
  {
    var cfg := Gated("", NoFilter, [Equals("app", "web-external")], []);
    var f := FakeIngress(["example.org"], [], ["8.8.8.8"], [], "testing", "fake1", map[], map["app" := "web-internal", "name" := "reverse-proxy"], "");
    PairSelector("app", "web-external", map["app" := "web-internal", "name" := "reverse-proxy"]);
    Exclude(cfg, Build(f));
    EndpointsOne(cfg, Build(f), []);
  }

  /** The configuration of the suite: the template `{{.Name}}` and nothing else. */
  function SuiteCfg(): Config
  {
    Config("", NoFilter, NameAction, false, NoFlags, Everything, [])
  }

  const FooWithTargets: FakeIngress :=
    FakeIngress(["foo"], [], ["8.8.8.8", "2606:4700:4700::1111"], ["v1"], "default", "foo-with-targets", map[], map[], "")

  /** source/ingress_test.go:43-77: the suite's source accepts its configuration and labels every record with the ingress. */
  lemma SuiteResourceLabel()
    ensures NewIngressSource(SuiteCfg()) == Success(SuiteCfg())
    ensures Endpoints(SuiteCfg(), [Build(FooWithTargets)]).Success?
    ensures forall e :: e in Endpoints(SuiteCfg(), [Build(FooWithTargets)]).value ==>
              ResourceLabelKey in e.labels && e.labels[ResourceLabelKey] == Owner("default", "foo-with-targets")
  {
    ResourceLabelIsSet(SuiteCfg(), [Build(FooWithTargets)]);
  }

  /** source/ingress_test.go:99-103: an annotation filter alone is accepted. */
  lemma FilterAloneAccepted()
    ensures NewIngressSource(Gated("", Filter([Equals(IngressClassKey, "nginx")]), Everything, [])).Success?
  {
  }

  /** source/ingress_test.go:104-108: a class-name list alone is accepted. */
  lemma ClassNamesAloneAccepted()
    ensures NewIngressSource(Gated("", NoFilter, Everything, ["internal", "external"])).Success?
  {
  }

  /** source/ingress_test.go:109-114: an annotation filter together with class names is refused. */
  lemma FilterWithClassNamesRefused()
    ensures NewIngressSource(Gated("", Filter([Equals(IngressClassKey, "nginx")]), Everything, ["internal", "external"]))
         == Failure(FilterWithClassNames)
  {
  }
}
