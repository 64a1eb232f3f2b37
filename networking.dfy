/**
 * The parts of the Kubernetes networking/v1 Ingress resource that the ingress
 * source reads, and the test builder that turns a flat description of an
 * ingress (`fakeIngress`) into such a resource.
 */
module Networking {

  datatype ObjectMeta = ObjectMeta(
    namespace: string,
    name: string,
    annotations: map<string, string>,
    labels: map<string, string>)

  /** A rule of the ingress spec; only its host matters here ("" when unset). */
  datatype IngressRule = IngressRule(host: string)

  /** A TLS block of the ingress spec with its ordered host list. */
  datatype IngressTLS = IngressTLS(hosts: seq<string>)

  /**
   * The ingress spec. `ingressClassName` is "" when the field is empty; the
   * builder always sets the pointer, so nil and "" are not told apart.
   */
  datatype IngressSpec = IngressSpec(
    rules: seq<IngressRule>,
    tls: seq<IngressTLS>,
    ingressClassName: string)

  /** One realised load-balancer entry: an IP literal or a host name, "" for the unset one. */
  datatype LoadBalancerIngress = LoadBalancerIngress(ip: string, hostname: string)

  datatype Ingress = Ingress(
    meta: ObjectMeta,
    spec: IngressSpec,
    loadBalancer: seq<LoadBalancerIngress>)

  /** The flat description the tables use to write an ingress. */
  datatype FakeIngress = FakeIngress(
    dnsnames: seq<string>,
    tlsdnsnames: seq<seq<string>>,
    ips: seq<string>,
    hostnames: seq<string>,
    namespace: string,
    name: string,
    annotations: map<string, string>,
    labels: map<string, string>,
    ingressClassName: string)

  /** One rule per host, in order. */
  function RulesFor(hosts: seq<string>): (rules: seq<IngressRule>)
    ensures |rules| == |hosts|
    ensures forall i :: 0 <= i < |hosts| ==> rules[i].host == hosts[i]
  {
    if |hosts| == 0 then [] else [IngressRule(hosts[0])] + RulesFor(hosts[1..])
  }

  /** One TLS block per host list, in order. */
  function TlsFor(blocks: seq<seq<string>>): (tls: seq<IngressTLS>)
    ensures |tls| == |blocks|
    ensures forall i :: 0 <= i < |blocks| ==> tls[i].hosts == blocks[i]
  {
    if |blocks| == 0 then [] else [IngressTLS(blocks[0])] + TlsFor(blocks[1..])
  }

  /** One load-balancer entry per IP, carrying no host name. */
  function IpEntries(ips: seq<string>): (lb: seq<LoadBalancerIngress>)
    ensures |lb| == |ips|
    ensures forall i :: 0 <= i < |ips| ==> lb[i] == LoadBalancerIngress(ips[i], "")
  {
    if |ips| == 0 then [] else [LoadBalancerIngress(ips[0], "")] + IpEntries(ips[1..])
  }

  /** One load-balancer entry per host name, carrying no IP. */
  function HostnameEntries(hostnames: seq<string>): (lb: seq<LoadBalancerIngress>)
    ensures |lb| == |hostnames|
    ensures forall i :: 0 <= i < |hostnames| ==> lb[i] == LoadBalancerIngress("", hostnames[i])
  {
    if |hostnames| == 0 then [] else [LoadBalancerIngress("", hostnames[0])] + HostnameEntries(hostnames[1..])
  }

  /**
   * `fakeIngress.Ingress()`: the metadata is copied, each dnsname becomes a
   * rule, each inner list a TLS block, and the load balancer lists every IP
   * before every host name.
   */
  function Build(f: FakeIngress): Ingress
  {
    Ingress(
      ObjectMeta(f.namespace, f.name, f.annotations, f.labels),
      IngressSpec(RulesFor(f.dnsnames), TlsFor(f.tlsdnsnames), f.ingressClassName),
      IpEntries(f.ips) + HostnameEntries(f.hostnames))
  }

  /**
   * The builder as the test writes it: start from empty lists and append in
   * four loops, rules first, then TLS blocks, then IPs, then host names.
   */
  method BuildIngress(f: FakeIngress) returns (ing: Ingress)
    ensures ing.meta == ObjectMeta(f.namespace, f.name, f.annotations, f.labels)
    ensures ing.spec.ingressClassName == f.ingressClassName
    ensures |ing.spec.rules| == |f.dnsnames|
    ensures forall i :: 0 <= i < |f.dnsnames| ==> ing.spec.rules[i].host == f.dnsnames[i]
    ensures |ing.spec.tls| == |f.tlsdnsnames|
    ensures forall i :: 0 <= i < |f.tlsdnsnames| ==> ing.spec.tls[i].hosts == f.tlsdnsnames[i]
    ensures |ing.loadBalancer| == |f.ips| + |f.hostnames|
    ensures forall i :: 0 <= i < |f.ips| ==> ing.loadBalancer[i] == LoadBalancerIngress(f.ips[i], "")
    ensures forall j :: 0 <= j < |f.hostnames| ==>
              ing.loadBalancer[|f.ips| + j] == LoadBalancerIngress("", f.hostnames[j])
    ensures ing == Build(f)
  {
    var rules: seq<IngressRule> := [];
    for i := 0 to |f.dnsnames|
      invariant |rules| == i
      invariant forall k :: 0 <= k < i ==> rules[k] == IngressRule(f.dnsnames[k])
    {
      rules := rules + [IngressRule(f.dnsnames[i])];
    }
    var tls: seq<IngressTLS> := [];
    for i := 0 to |f.tlsdnsnames|
      invariant |tls| == i
      invariant forall k :: 0 <= k < i ==> tls[k] == IngressTLS(f.tlsdnsnames[k])
    {
      tls := tls + [IngressTLS(f.tlsdnsnames[i])];
    }
    var lb: seq<LoadBalancerIngress> := [];
    for i := 0 to |f.ips|
      invariant |lb| == i
      invariant forall k :: 0 <= k < i ==> lb[k] == LoadBalancerIngress(f.ips[k], "")
    {
      lb := lb + [LoadBalancerIngress(f.ips[i], "")];
    }
    for i := 0 to |f.hostnames|
      invariant |lb| == |f.ips| + i
      invariant forall k :: 0 <= k < |f.ips| ==> lb[k] == LoadBalancerIngress(f.ips[k], "")
      invariant forall k :: 0 <= k < i ==> lb[|f.ips| + k] == LoadBalancerIngress("", f.hostnames[k])
    {
      lb := lb + [LoadBalancerIngress("", f.hostnames[i])];
    }
    ing := Ingress(
      ObjectMeta(f.namespace, f.name, f.annotations, f.labels),
      IngressSpec(rules, tls, f.ingressClassName),
      lb);
    assert rules == RulesFor(f.dnsnames);
    assert tls == TlsFor(f.tlsdnsnames);
    assert lb == IpEntries(f.ips) + HostnameEntries(f.hostnames);
  }
}
