/**
 * The target extractor: the load-balancer entries of an ingress, or the
 * values of its target annotation, sorted into the three groups that become
 * A, AAAA and CNAME records.
 */
module Targets {
  import opened Wrappers
  import Strings
  import opened Addresses
  import opened Networking
  import Annotations

  /** Targets by family, each group in input order. */
  datatype TargetGroups = TargetGroups(ipv4: seq<string>, ipv6: seq<string>, hostnames: seq<string>)

  const NoGroups: TargetGroups := TargetGroups([], [], [])

  predicate IsEmpty(g: TargetGroups)
  {
    g.ipv4 == [] && g.ipv6 == [] && g.hostnames == []
  }

  /** Each group holds only what its record type can point at. */
  predicate Homogeneous(g: TargetGroups)
  {
    (forall t :: t in g.ipv4 ==> Classify(t) == IPv4)
    && (forall t :: t in g.ipv6 ==> Classify(t) == IPv6)
    && (forall t :: t in g.hostnames ==> t != "")
  }

  /** Every target of every group. */
  function AllTargets(g: TargetGroups): seq<string>
  {
    g.ipv4 + g.ipv6 + g.hostnames
  }

  /** Group-wise concatenation. */
  function Concat(a: TargetGroups, b: TargetGroups): TargetGroups
  {
    TargetGroups(a.ipv4 + b.ipv4, a.ipv6 + b.ipv6, a.hostnames + b.hostnames)
  }

  /** Joining homogeneous groups keeps them homogeneous. */
  lemma ConcatHomogeneous(a: TargetGroups, b: TargetGroups)
    requires Homogeneous(a) && Homogeneous(b)
    ensures Homogeneous(Concat(a, b))
  {
  }

  /** The targets of the given family, in order. */
  function Select(targets: seq<string>, f: Family): (r: seq<string>)
    ensures |r| <= |targets|
  {
    if |targets| == 0 then []
    else (if Classify(targets[0]) == f then [targets[0]] else []) + Select(targets[1..], f)
  }

  /** The non-empty strings, in order. */
  function NonEmpty(names: seq<string>): (r: seq<string>)
    ensures |r| <= |names|
  {
    if |names| == 0 then []
    else (if names[0] != "" then [names[0]] else []) + NonEmpty(names[1..])
  }

  /** A target is selected exactly when it is one of the targets and of the family. */
  lemma {:induction false} SelectMembership(targets: seq<string>, f: Family, t: string)
    ensures t in Select(targets, f) <==> t in targets && Classify(t) == f
    decreases |targets|
  {
    if |targets| > 0 {
      SelectMembership(targets[1..], f, t);
      assert targets == [targets[0]] + targets[1..];
    }
  }

  /** A name is kept exactly when it is one of the names and not empty. */
  lemma {:induction false} NonEmptyMembership(names: seq<string>, t: string)
    ensures t in NonEmpty(names) <==> t in names && t != ""
    decreases |names|
  {
    if |names| > 0 {
      NonEmptyMembership(names[1..], t);
      assert names == [names[0]] + names[1..];
    }
  }

  /** Targets all of one family are all selected for it, and none for another. */
  lemma {:induction false} SelectUniform(targets: seq<string>, f: Family, other: Family)
    requires forall t :: t in targets ==> Classify(t) == f
    requires other != f
    ensures Select(targets, f) == targets
    ensures Select(targets, other) == []
    decreases |targets|
  {
    if |targets| > 0 {
      assert targets[0] in targets;
      assert forall t :: t in targets[1..] ==> t in targets;
      SelectUniform(targets[1..], f, other);
      assert [targets[0]] + targets[1..] == targets;
    }
  }

  /** Selecting from joined lists joins the selections. */
  lemma {:induction false} SelectAppend(a: seq<string>, b: seq<string>, f: Family)
    ensures Select(a + b, f) == Select(a, f) + Select(b, f)
    decreases |a|
  {
    if |a| == 0 {
      assert a + b == b;
    } else {
      HeadOfAppend(a, b);
      SelectAppend(a[1..], b, f);
      AppendAssociative(if Classify(a[0]) == f then [a[0]] else [], Select(a[1..], f), Select(b, f));
    }
  }

  /** A joined list starts with the first list's head, followed by its tail and the second list. */
  lemma HeadOfAppend<T>(a: seq<T>, b: seq<T>)
    requires |a| > 0
    ensures (a + b)[0] == a[0] && (a + b)[1..] == a[1..] + b
  {
  }

  /** Joining lists is associative. */
  lemma AppendAssociative<T>(x: seq<T>, y: seq<T>, z: seq<T>)
    ensures x + (y + z) == (x + y) + z
  {
  }

  /** Names none of which is empty are all kept. */
  lemma {:induction false} NonEmptyOfFilled(names: seq<string>)
    requires forall t :: t in names ==> t != ""
    ensures NonEmpty(names) == names
    decreases |names|
  {
    if |names| > 0 {
      assert names[0] in names;
      assert forall t :: t in names[1..] ==> t in names;
      NonEmptyOfFilled(names[1..]);
      assert [names[0]] + names[1..] == names;
    }
  }

  /**
   * One load-balancer entry: a host name becomes a CNAME target; otherwise the
   * IP is an A or AAAA target, and an empty or unparsable IP is skipped.
   */
  function EntryGroups(e: LoadBalancerIngress): (g: TargetGroups)
    ensures Homogeneous(g)
    ensures |AllTargets(g)| <= 1
  {
    if e.hostname != "" then TargetGroups([], [], [e.hostname])
    else match Classify(e.ip)
      case IPv4 => TargetGroups([e.ip], [], [])
      case IPv6 => TargetGroups([], [e.ip], [])
      case NotAnAddress => NoGroups
  }

  /** The targets of the realised load balancer, in entry order within each group. */
  function StatusGroups(lb: seq<LoadBalancerIngress>): TargetGroups
  {
    if |lb| == 0 then NoGroups else Concat(EntryGroups(lb[0]), StatusGroups(lb[1..]))
  }

  /** The load balancer's groups hold only targets of their record type. */
  lemma {:induction false} StatusGroupsHomogeneous(lb: seq<LoadBalancerIngress>)
    ensures Homogeneous(StatusGroups(lb))
    decreases |lb|
  {
    if |lb| > 0 {
      StatusGroupsHomogeneous(lb[1..]);
      ConcatHomogeneous(EntryGroups(lb[0]), StatusGroups(lb[1..]));
    }
  }

  /** Group-wise joining is associative. */
  lemma ConcatAssociative(x: TargetGroups, y: TargetGroups, z: TargetGroups)
    ensures Concat(x, Concat(y, z)) == Concat(Concat(x, y), z)
  {
    assert x.ipv4 + (y.ipv4 + z.ipv4) == (x.ipv4 + y.ipv4) + z.ipv4;
    assert x.ipv6 + (y.ipv6 + z.ipv6) == (x.ipv6 + y.ipv6) + z.ipv6;
    assert x.hostnames + (y.hostnames + z.hostnames) == (x.hostnames + y.hostnames) + z.hostnames;
  }

  /** Joining no groups in front changes nothing. */
  lemma ConcatNone(z: TargetGroups)
    ensures Concat(NoGroups, z) == z
  {
    assert [] + z.ipv4 == z.ipv4;
    assert [] + z.ipv6 == z.ipv6;
    assert [] + z.hostnames == z.hostnames;
  }

  /** The load balancer's targets of a split list are the targets of its two parts. */
  lemma {:induction false} StatusGroupsAppend(a: seq<LoadBalancerIngress>, b: seq<LoadBalancerIngress>)
    ensures StatusGroups(a + b) == Concat(StatusGroups(a), StatusGroups(b))
    decreases |a|
  {
    if |a| == 0 {
      assert a + b == b;
      ConcatNone(StatusGroups(b));
    } else {
      assert (a + b)[0] == a[0];
      assert (a + b)[1..] == a[1..] + b;
      StatusGroupsAppend(a[1..], b);
      ConcatAssociative(EntryGroups(a[0]), StatusGroups(a[1..]), StatusGroups(b));
    }
  }

  /** The groups of one entry hold its IP under its family, or its host name. */
  lemma EntryMembership(e: LoadBalancerIngress, t: string)
    ensures t in EntryGroups(e).ipv4 <==> e.hostname == "" && e.ip == t && Classify(t) == IPv4
    ensures t in EntryGroups(e).ipv6 <==> e.hostname == "" && e.ip == t && Classify(t) == IPv6
    ensures t in EntryGroups(e).hostnames <==> t != "" && e.hostname == t
  {
  }

  /** A target is grouped exactly when some entry of the load balancer carries it. */
  lemma {:induction false} StatusMembership(lb: seq<LoadBalancerIngress>, t: string)
    ensures t in StatusGroups(lb).ipv4 <==> exists e :: e in lb && e.hostname == "" && e.ip == t && Classify(t) == IPv4
    ensures t in StatusGroups(lb).ipv6 <==> exists e :: e in lb && e.hostname == "" && e.ip == t && Classify(t) == IPv6
    ensures t in StatusGroups(lb).hostnames <==> t != "" && exists e :: e in lb && e.hostname == t
    decreases |lb|
  {
    if |lb| > 0 {
      var x, y := EntryGroups(lb[0]), StatusGroups(lb[1..]);
      assert StatusGroups(lb) == Concat(x, y);
      StatusMembership(lb[1..], t);
      EntryMembership(lb[0], t);
      assert lb[0] in lb;
      assert forall e :: e in lb ==> e == lb[0] || e in lb[1..];
      assert forall e :: e in lb[1..] ==> e in lb;
    }
  }

  /** The entries the builder makes for IPs give their addresses, by family. */
  lemma {:induction false} StatusGroupsOfIps(ips: seq<string>)
    ensures StatusGroups(IpEntries(ips)) == TargetGroups(Select(ips, IPv4), Select(ips, IPv6), [])
    decreases |ips|
  {
    if |ips| > 0 {
      var lb := IpEntries(ips);
      assert lb[1..] == IpEntries(ips[1..]);
      StatusGroupsOfIps(ips[1..]);
    }
  }

  /** The entries the builder makes for host names give those names, the empty ones dropped. */
  lemma {:induction false} StatusGroupsOfHostnames(hostnames: seq<string>)
    ensures StatusGroups(HostnameEntries(hostnames)) == TargetGroups([], [], NonEmpty(hostnames))
    decreases |hostnames|
  {
    if |hostnames| > 0 {
      var lb := HostnameEntries(hostnames);
      assert lb[1..] == HostnameEntries(hostnames[1..]);
      StatusGroupsOfHostnames(hostnames[1..]);
      if hostnames[0] == "" {
        assert Classify("") == NotAnAddress by {
          assert Strings.Split("", '.') == [""];
          assert Strings.Split("", ':') == [""];
        }
      }
    }
  }

  /**
   * The load balancer of a built ingress: its IPv4 addresses, its IPv6
   * addresses and its non-empty host names, each in the order written.
   */
  lemma StatusGroupsOfBuild(f: FakeIngress)
    ensures StatusGroups(Build(f).loadBalancer)
         == TargetGroups(Select(f.ips, IPv4), Select(f.ips, IPv6), NonEmpty(f.hostnames))
  {
    StatusGroupsAppend(IpEntries(f.ips), HostnameEntries(f.hostnames));
    StatusGroupsOfIps(f.ips);
    StatusGroupsOfHostnames(f.hostnames);
  }

  /** Override values sorted by their own family; anything that is not an IP is a CNAME target. */
  function OverrideGroups(targets: seq<string>): TargetGroups
  {
    TargetGroups(Select(targets, IPv4), Select(targets, IPv6), Select(targets, NotAnAddress))
  }

  /** Selecting from a list with a first element: that element, if of the family, then the rest's selection. */
  lemma SelectFirst(t: string, rest: seq<string>, f: Family)
    ensures multiset(Select([t] + rest, f)) == (if Classify(t) == f then multiset{t} else multiset{}) + multiset(Select(rest, f))
  {
    assert ([t] + rest)[1..] == rest;
  }

  /** One target of family `c` in front of three partitioned selections. */
  lemma PartitionStep(t: string, c: Family, x4: multiset<string>, x6: multiset<string>, xn: multiset<string>,
                      m4: multiset<string>, m6: multiset<string>, mn: multiset<string>)
    requires x4 == (if c == IPv4 then multiset{t} else multiset{}) + m4
    requires x6 == (if c == IPv6 then multiset{t} else multiset{}) + m6
    requires xn == (if c == NotAnAddress then multiset{t} else multiset{}) + mn
    ensures x4 + x6 + xn == multiset{t} + (m4 + m6 + mn)
  {
  }

  /** The families split the targets: no target is lost or duplicated. */
  lemma {:induction false} SelectPartition(targets: seq<string>)
    ensures multiset(Select(targets, IPv4)) + multiset(Select(targets, IPv6)) + multiset(Select(targets, NotAnAddress))
         == multiset(targets)
    decreases |targets|
  {
    if |targets| > 0 {
      var t, rest := targets[0], targets[1..];
      SelectPartition(rest);
      assert targets == [t] + rest;
      SelectFirst(t, rest, IPv4);
      SelectFirst(t, rest, IPv6);
      SelectFirst(t, rest, NotAnAddress);
      PartitionStep(t, Classify(t),
                    multiset(Select(targets, IPv4)), multiset(Select(targets, IPv6)), multiset(Select(targets, NotAnAddress)),
                    multiset(Select(rest, IPv4)), multiset(Select(rest, IPv6)), multiset(Select(rest, NotAnAddress)));
      assert multiset(targets) == multiset{t} + multiset(rest);
    }
  }

  /** The groups of non-empty override values are homogeneous and hold every value once. */
  lemma OverrideGroupsPartition(targets: seq<string>)
    requires forall t :: t in targets ==> t != ""
    ensures Homogeneous(OverrideGroups(targets))
    ensures multiset(AllTargets(OverrideGroups(targets))) == multiset(targets)
  {
    SelectPartition(targets);
    forall t | t in Select(targets, IPv4) ensures Classify(t) == IPv4 {
      SelectMembership(targets, IPv4, t);
    }
    forall t | t in Select(targets, IPv6) ensures Classify(t) == IPv6 {
      SelectMembership(targets, IPv6, t);
    }
    forall t | t in Select(targets, NotAnAddress) ensures t != "" {
      SelectMembership(targets, NotAnAddress, t);
    }
  }

  /** The groups used for an ingress: the override when the target annotation is present, else the load balancer. */
  function ResolveGroups(annotations: map<string, string>, lb: seq<LoadBalancerIngress>): TargetGroups
  {
    match Annotations.Override(annotations)
    case Some(targets) => OverrideGroups(targets)
    case None => StatusGroups(lb)
  }

  /** Whichever way they are chosen, the groups of an ingress are homogeneous. */
  lemma ResolveGroupsHomogeneous(annotations: map<string, string>, lb: seq<LoadBalancerIngress>)
    ensures Homogeneous(ResolveGroups(annotations, lb))
  {
    match Annotations.Override(annotations)
    case Some(targets) => OverrideGroupsPartition(targets);
    case None => StatusGroupsHomogeneous(lb);
  }

  /**
   * With the target annotation present, the load balancer plays no part: the
   * groups hold exactly the annotation's values.
   */
  lemma OverrideReplacesStatus(annotations: map<string, string>, lb: seq<LoadBalancerIngress>, other: seq<LoadBalancerIngress>)
    requires Annotations.TargetKey in annotations
    ensures ResolveGroups(annotations, lb) == ResolveGroups(annotations, other)
    ensures multiset(AllTargets(ResolveGroups(annotations, lb))) == multiset(Annotations.Override(annotations).value)
  {
    OverrideGroupsPartition(Annotations.Override(annotations).value);
  }

  /** A target annotation with no entries leaves no targets at all. */
  lemma EmptyOverrideHasNoTargets(annotations: map<string, string>, lb: seq<LoadBalancerIngress>)
    requires Annotations.TargetKey in annotations
    requires Annotations.Override(annotations).value == []
    ensures IsEmpty(ResolveGroups(annotations, lb))
  {
  }
}
