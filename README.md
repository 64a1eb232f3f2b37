# Ingress source of external-dns, in Dafny

This project models the ingress source of external-dns. That is the part of
the controller that turns Kubernetes `Ingress` resources into DNS endpoint
records. It has three parts:

- **The test builder.** `fakeIngress` and its `Ingress()` method
  (`Networking`) turn flat lists into an ingress: one rule per dnsname, one TLS
  block per inner list, and load-balancer entries, all IPs first and then all
  host names. `BuildIngress` is the imperative builder with its four loops.
  `Build` is the same construction as a function, and the method is proved
  equal to it.
- **Per-ingress extraction, `endpointsFromIngress`** (`IngressEndpoints`). It
  has these parts:
  - `Hosts` collects the candidate hosts from the rules, the TLS blocks and
    the hostname annotation. The three ignore switches and the
    hostname-source mode govern which sources count.
  - `Targets` sorts the load-balancer entries into IPv4, IPv6 and host-name
    groups, using the classifier in `Addresses`. The target annotation
    (`Annotations.Override`) can replace them.
  - `Annotations` reads the TTL and alias annotations.
  - `Endpoint` checks the host names: at most 253 characters, labels of at
    most 63.

  Each host gets one A, one AAAA and one CNAME record, for each group that
  is not empty. Every record carries the resource label
  `ingress/<namespace>/<name>`.
- **The source, `NewIngressSource` and `Endpoints`** (`IngressSource`).
  - Construction refuses an annotation filter combined with a list of
    ingress classes.
  - `Endpoints` admits an ingress through five gates: namespace, ingress
    class, annotation filter, label selector and controller ownership.
    Then it adds the FQDN-template records (`Fqdn`) and concatenates the
    records of the admitted ingresses in list order.
  - A filter that does not parse fails the call.

A record is *well formed* when:

- its name is valid;
- it has at least one target, and every target is of its record type;
- its TTL, if any, is at least one second;
- the only pair it may carry is (`alias`, `true`), and only on a CNAME;
- its labels are exactly the resource label.

The tables of `source/ingress_test.go` are proved row by row:

- `IngressTables` proves one lemma per row of `endpointsFromIngress` and of
  the hostname-source tables.
- `SourceTables` proves one lemma per row of `Endpoints` and of
  `NewIngressSource`, plus the suite's resource-label test.
- `TableSupport` and `SourceShapes` hold the small helper lemmas these rows
  are built from.

A few choices in the model:

- Every row lemma states the records in one exact order. Hosts come in
  collection order. Each host's records come A, AAAA, CNAME. Ingresses
  come in list order. This is stronger than an order-insensitive
  comparison.
- A target annotation with no entries leaves the ingress without targets, whatever its load balancer holds. The row at 1169-1186 checks this only with an empty load balancer.
- Rows 276-294 and 310-328 of the test file are the same row. One lemma,
  `NoSourceModeRuleAndAnnotationHost`, covers both.
- The row at 254-259 has a long-label host and no targets. Its lemma also
  proves the variant with an IPv4 target, where the invalid name is what
  prevents the record.

## Model

| member | source | states |
|---|---|---|
| Networking.Build | source/ingress_test.go:1448-1499 | The builder as a function. `BuildIngress` is proved equal to it, so its layout is the method's: rules, TLS blocks, then IP entries before host-name entries. `RuleHostsOfBuild` and `StatusGroupsOfBuild` give the hosts and target groups it yields. |
| Networking.BuildIngress | source/ingress_test.go:1460-1499 | The builder's four loops put one rule per dnsname and one TLS block per inner list in order, then every IP entry before every host-name entry. The metadata and class are copied, and the result equals `Build`. |
| Networking.RulesFor | source/ingress_test.go:1478-1482 | One rule per dnsname, with that host, in order. |
| Networking.TlsFor | source/ingress_test.go:1483-1487 | One TLS block per inner list, holding that list, in order. |
| Networking.IpEntries | source/ingress_test.go:1488-1492 | One load-balancer entry per IP, carrying no host name. |
| Networking.HostnameEntries | source/ingress_test.go:1493-1497 | One load-balancer entry per host name, carrying no IP. |
| Addresses.Classify | source/ingress_test.go:168-219 | The family of a target. `ClassifyMeaning` proves each family is exactly its notation; `FamiliesAreDisjoint`, `IPv4Literal` and `IPv6Literal` say which literals are which. |
| Addresses.ClassifyMeaning | source/ingress_test.go:196-219 | An IPv4 literal is classified IPv4 and an IPv6 literal IPv6. Each family is exactly its notation. |
| Addresses.FamiliesAreDisjoint | source/ingress_test.go:168-192 | No string is both an IPv4 and an IPv6 literal. |
| Addresses.IPv4Characters | source/ingress_test.go:168-179 | An IPv4 literal has only digits and dots. |
| Addresses.IPv6Characters | source/ingress_test.go:182-192 | An IPv6 literal has only hexadecimal digits and colons, and at least one colon. |
| Addresses.NameIsNotAnAddress | source/ingress_test.go:797-846 | A value with no colon and a character other than a digit or dot (such as `ingress-target.com`) is not an address, so it is a CNAME target. |
| Addresses.IPv4Literal | source/ingress_test.go:168-179 | Four octets joined by dots form an IPv4 literal. |
| Addresses.IPv6Literal | source/ingress_test.go:182-192 | Hexadecimal groups joined by colons, with an empty group when there are fewer than eight, form an IPv6 literal. |
| Addresses.AllHexGroupsMeaning | source/ingress_test.go:182-192 | The recursive group check means that every group is hexadecimal. |
| Endpoint.NewEndpoint | source/ingress_test.go:254-259 | A record is made exactly when the name, less one trailing dot, is valid. It has the given type, targets and TTL, and no extensions or labels. |
| Endpoint.LabelsFitMeaning | source/ingress_test.go:254-259 | The recursive label check means that no label exceeds 63 characters. |
| Endpoint.ShortNameIsValid | source/ingress_test.go:154-166 | A non-empty name of at most 63 characters, with no white space at its ends, is accepted. |
| Endpoint.LongFirstLabelIsInvalid | source/ingress_test.go:254-259 | A name whose first label is longer than 63 characters is refused. |
| Endpoint.BlankNameIsInvalid | source/ingress_test.go:229-236 | A blank name is refused. |
| Annotations.Hostnames | source/ingress_test.go:924-982 | The hostname annotation's hosts: none without the annotation, and never an empty or comma-holding host. |
| Annotations.Override | source/ingress_test.go:797-846 | The target override is present exactly when the target annotation is. Its entries are never empty and hold no comma. |
| Annotations.ParseTtl | source/ingress_test.go:1011-1066 | A TTL, when read, is at least one second. An empty value, or one with a non-digit before its last character, gives no TTL. |
| Annotations.ParseTtlMeaning | source/ingress_test.go:1011-1066 | A TTL is read only from positive digits, bare or followed by `s`, and is their decimal value. Every such value is read, and every other form (`"6x"`, `"10m"`, `"s"`, `"0"`) gives no TTL. |
| Annotations.ParseTtlOfDigits | source/ingress_test.go:1011-1066 | Positive digits read as their value, whether bare or followed by `s`. |
| Annotations.Ttl | source/ingress_test.go:1011-1066 | The TTL annotation read by `ParseTtl`; no annotation, no TTL. What it promises is `ParseTtl`'s contract and `ParseTtlMeaning`. |
| Annotations.Alias | source/ingress_test.go:1067-1115 | The alias flag is set exactly when the annotation reads as true under `ParseBool`, whose contract lists the spellings. |
| Annotations.ControlledByUs | source/ingress_test.go:636-673 | An ingress is ours when the controller annotation is absent or is `dns-controller`. `OurController` and `OtherController` prove both rows. |
| Annotations.ParseTtlOfSeconds | source/ingress_test.go:1011-1066 | A positive number of seconds reads back as itself, whether written as plain digits (`"6"`) or with `s` (`"10s"`). |
| Annotations.ParseBool | source/ingress_test.go:1067-1115 | True exactly for the six spellings `strconv.ParseBool` accepts as true, false exactly for its six false spellings. |
| Annotations.HostnameSourceOf | source/ingress_test.go:268-358 | `defined-hosts-only` and `annotation-only` select their modes exactly when written. Anything else, or no annotation, means both sources. |
| Fqdn.RenderAll | source/ingress_test.go:720-745 | One name per template entry, each with `{{.Name}}` replaced by the resource name, in order. |
| Fqdn.ExecTemplate | source/ingress_test.go:674-702 | One name per non-blank entry of the comma-separated template, in order: the trimmed entry with every `{{.Name}}` replaced by the resource name. |
| Fqdn.PlainTemplate | source/ingress_test.go:674-702 | A template without actions gives its own entries for every resource. |
| Fqdn.PlainEntry | source/ingress_test.go:674-702 | An entry of an action-free template holds no action. |
| Fqdn.RenderName | source/ingress_test.go:674-702 | `{{.Name}}<suffix>` renders to `<name><suffix>`. |
| Fqdn.NameEntryIsTrimmed | source/ingress_test.go:720-745 | `{{.Name}}` followed by a plain suffix survives splitting and trimming as one entry. |
| Fqdn.SingleNameTemplate | source/ingress_test.go:674-702 | `{{.Name}}<suffix>` gives exactly the one name `<name><suffix>`. |
| Fqdn.TwoNameTemplate | source/ingress_test.go:720-745 | `{{.Name}}<a>, {{.Name}}<b>` gives exactly `<name><a>` and then `<name><b>`. |
| Hosts.RuleHosts | source/ingress_test.go:221-236 | The rule hosts, never empty, and never more than there are rules. |
| Hosts.BlockHosts | source/ingress_test.go:847-889 | A host is kept from a TLS block exactly when the block lists it and it is not empty. |
| Hosts.TlsHosts | source/ingress_test.go:890-923 | The TLS hosts, never empty. |
| Hosts.RuleHostsMembership | source/ingress_test.go:221-236 | A host is a rule host exactly when it is not empty and some rule declares it. |
| Hosts.TlsHostsMembership | source/ingress_test.go:847-923 | A host is a TLS host exactly when it is not empty and some TLS block lists it. |
| Hosts.CollectHosts | source/ingress_test.go:268-358 | No candidate host is empty. |
| Hosts.HostOrigin | source/ingress_test.go:268-358 | Every candidate host comes from a source that is switched on: a rule, a TLS block or the hostname annotation. |
| Hosts.DefaultModeKeepsEverySource | source/ingress_test.go:276-328 | In the default mode, every rule host, TLS host and annotation host (of the sources switched on) is a candidate. |
| Hosts.DefinedHostsOnlyIgnoresAnnotation | source/ingress_test.go:330-343 | `defined-hosts-only` gives the same hosts as ignoring the hostname annotation. |
| Hosts.AnnotationOnlyUsesAnnotation | source/ingress_test.go:345-358 | `annotation-only` with the annotation read gives the annotation's hosts alone, whatever the rules, TLS blocks and switches. |
| Hosts.NoAnnotationHostsWithoutAnnotation | source/ingress_test.go:1187-1220 | With the annotation ignored or absent, the mode plays no part. The candidates are the rule hosts and then the TLS hosts, each unless switched off. |
| Hosts.RuleHostsOfBuild | source/ingress_test.go:1478-1482 | The rule hosts of a built ingress are its dnsnames, in order, the empty ones dropped. |
| Targets.ConcatHomogeneous | source/ingress_test.go:196-219 | Joining groups that hold only their own family keeps them so. |
| Targets.NonEmpty | source/ingress_test.go:154-166 | Keeping the non-empty names never lengthens the list. |
| Targets.SelectMembership | source/ingress_test.go:196-219 | A target is selected for a family exactly when it is one of the targets and of that family. |
| Targets.NonEmptyMembership | source/ingress_test.go:154-166 | A name is kept exactly when it is one of the names and not empty. |
| Targets.SelectUniform | source/ingress_test.go:168-192 | Targets all of one family are all selected for it, in order, and none for another. |
| Targets.SelectAppend | source/ingress_test.go:439-462 | Selecting from joined lists joins the selections, so each family keeps its input order. |
| Targets.NonEmptyOfFilled | source/ingress_test.go:196-219 | Names none of which is empty are all kept, in order. |
| Targets.EntryGroups | source/ingress_test.go:154-192 | One load-balancer entry gives at most one target, in the group of its own kind. |
| Targets.StatusGroupsHomogeneous | source/ingress_test.go:196-219 | The load balancer's groups hold only targets of their record type. |
| Targets.StatusGroupsAppend | source/ingress_test.go:1488-1497 | The groups of a split entry list are the group-wise join of its two parts' groups. |
| Targets.EntryMembership | source/ingress_test.go:154-192 | One entry's IP is in the IPv4 or IPv6 group exactly when it carries no host name and is of that family. |
| Targets.StatusMembership | source/ingress_test.go:196-219 | A target is in the IPv4 or IPv6 group exactly when some entry without a host name carries it as an IP of that family. |
| Targets.StatusGroupsOfIps | source/ingress_test.go:1488-1492 | The builder's IP entries give their addresses, by family, in order. |
| Targets.StatusGroupsOfHostnames | source/ingress_test.go:1493-1497 | The builder's host-name entries give those names, the empty ones dropped. |
| Targets.StatusGroupsOfBuild | source/ingress_test.go:196-219 | A built ingress's load balancer gives its IPv4 addresses, its IPv6 addresses and its non-empty host names, each in the order written. |
| Targets.StatusGroups | source/ingress_test.go:154-219 | The load balancer's targets by group, in entry order. `StatusGroupsHomogeneous` and `StatusMembership` prove what each group holds; `StatusGroupsOfBuild` gives the groups of a built ingress. |
| Targets.OverrideGroups | source/ingress_test.go:797-846 | The override values sorted by family. `OverrideGroupsPartition` proves the groups homogeneous and holding every value exactly once. |
| Targets.ResolveGroups | source/ingress_test.go:797-1010 | The override's groups when the target annotation is present, else the load balancer's. `ResolveGroupsHomogeneous`, `OverrideReplacesStatus` and `EmptyOverrideHasNoTargets` state what this gives. |
| Targets.SelectFirst | source/ingress_test.go:797-846 | A leading target counts for its own family's selection only. |
| Targets.SelectPartition | source/ingress_test.go:797-846 | The three families split the override values: no value is lost or duplicated. |
| Targets.OverrideGroupsPartition | source/ingress_test.go:797-846 | The override's groups hold only their own family and hold every value exactly once. |
| Targets.ResolveGroupsHomogeneous | source/ingress_test.go:797-846 | Whether from the override or the load balancer, an ingress's groups hold only their own family. |
| Targets.OverrideReplacesStatus | source/ingress_test.go:797-846 | With the target annotation present, the load balancer plays no part. |
| Targets.EmptyOverrideHasNoTargets | source/ingress_test.go:1169-1186 | A target annotation with no entries leaves no target at all. The row has an empty load balancer; that the load balancer is ignored in this case too is a choice of the model (see above). |
| IngressEndpoints.OptionsOf | source/ingress_test.go:1011-1066 | An ingress's record options never carry a TTL below one second. |
| IngressEndpoints.Record | source/ingress_test.go:154-259 | A host gets at most one record of each type. It gets one exactly when that type's group is not empty and the name, less one trailing dot, is valid. The record has that name, that type, the whole group as targets and the options' TTL. |
| IngressEndpoints.EndpointsForHostname | source/ingress_test.go:196-219 | A host gets at most three records. |
| IngressEndpoints.EndpointsForHosts | source/ingress_test.go:276-294 | A list of hosts gets at most three records per host. |
| IngressEndpoints.RecordWellFormed | source/ingress_test.go:1011-1115 | A record made from targets of its own type is well formed and named after its host less one trailing dot. It has the given type, targets and TTL. It carries the pair (`alias`, `true`) exactly when the alias flag is set and it is a CNAME. |
| IngressEndpoints.HostnameRecordsWellFormed | source/ingress_test.go:196-219 | Every record of a host is well formed and named after the host less one trailing dot. |
| IngressEndpoints.HostsRecordsWellFormed | source/ingress_test.go:276-294 | Every record of a list of hosts is well formed and named after one of the hosts. |
| IngressEndpoints.EndpointsFromIngressWellFormed | source/ingress_test.go:72-77 | Every record of `endpointsFromIngress` is well formed, carries the ingress's resource label, and is named after one of its candidate hosts. |
| IngressEndpoints.EndpointsForHostsAppend | source/ingress_test.go:276-294 | The records of a split host list are the records of its two parts. |
| IngressEndpoints.HostRecordOfType | source/ingress_test.go:154-219 | A host gets a record of a type exactly when its name is valid and that type's group is not empty. The record holds the whole group. |
| IngressEndpoints.EndpointsFromIngress | source/ingress_test.go:142-365 | `endpointsFromIngress`. `EndpointsFromIngressWellFormed` proves every record well formed, labelled and named after a candidate host. `HostRecordOfType` says which types a host gets, and `NoRecordsIff` when there are none. `DefaultModeRecords`, `OverrideRecords` and the `IngressTables` rows give the rest. |
| IngressEndpoints.NoTargetsNoRecords | source/ingress_test.go:238-243 | No target at all means no record, whatever the hosts. |
| IngressEndpoints.NoValidHostNoRecords | source/ingress_test.go:221-259 | No host with a valid name means no record, whatever the targets. |
| IngressEndpoints.ValidHostGivesRecords | source/ingress_test.go:154-192 | A host with a valid name and some target gets at least one record. |
| IngressEndpoints.NoRecordsIff | source/ingress_test.go:221-259 | A host list yields no record exactly when there is no target or no host with a valid name. |
| IngressEndpoints.DefaultModeRecords | source/ingress_test.go:276-328 | In the default mode, the records of the defined hosts come first, then those of the annotation's hosts. |
| IngressEndpoints.OverrideRecords | source/ingress_test.go:983-1010 | With the target annotation present, the load balancer does not change the records, and every record points only at the annotation's values. |
| IngressEndpoints.TargetsFromGroups | source/ingress_test.go:797-846 | Every target of every record is a target of the groups. |
| IngressSource.NewIngressSource | source/ingress_test.go:88-140 | Construction fails exactly when an annotation filter and a non-empty class list are both given, with that error. Otherwise the configuration is kept as given. |
| IngressSource.Endpoints | source/ingress_test.go:578-595 | The call fails exactly when the annotation filter does not parse, with the invalid-filter error. |
| IngressSource.EffectiveClass | source/ingress_test.go:1255-1365 | The class of an ingress. `ClassPrecedence` proves the class field decides when set, the legacy annotation otherwise. |
| IngressSource.ClassAdmits | source/ingress_test.go:1255-1365 | No class list admits everything; a list admits the classes it names. `ClassPrecedence` states it for both sources of the class. |
| IngressSource.Admitted | source/ingress_test.go:483-673 | The five gates: namespace, class, annotation filter, label selector and controller ownership. `ExcludedContributesNothing` proves an ingress that fails one contributes nothing; the `SourceTables` rows check each gate. |
| IngressSource.TemplateEndpoints | source/ingress_test.go:674-745 | The records for the template's names with the ingress's own targets. `SingleNameTemplate` and `TwoNameTemplate` give the names; `TemplateUsedIff` says when they are used. |
| IngressSource.IngressRecords | source/ingress_test.go:674-796 | The records of one admitted ingress. `OwnRecordsFirst`, `CombinedRecords`, `TemplateUsedIff` and `NoTargetsNoIngressRecords` say when the template applies; `IngressRecordsWellFormed` says what the records are. |
| IngressSource.Collect | source/ingress_test.go:367-1445 | The records of the admitted ingresses in list order. `CollectAppend`, `ExcludedContributesNothing` and `CollectedRecordsWellFormed` state this. |
| IngressSource.CollectAppend | source/ingress_test.go:391-420 | The records of a split ingress list are the records of its two parts, in list order. |
| IngressSource.ExcludedContributesNothing | source/ingress_test.go:658-673 | An ingress that fails a gate contributes nothing: removing it from anywhere in the list changes no record. |
| IngressSource.IngressRecordsWellFormed | source/ingress_test.go:72-77 | Every record of one ingress, own or templated, is well formed and labelled with that ingress's identity. |
| IngressSource.CollectedRecordsWellFormed | source/ingress_test.go:1440-1442 | Every record of `Endpoints` is well formed and labelled with an admitted ingress of the list. |
| IngressSource.ResourceLabelIsSet | source/ingress_test.go:1440-1442 | Every returned record carries the resource label, naming an ingress of the list in the configured namespace. |
| IngressSource.OwnRecordsFirst | source/ingress_test.go:720-745 | Without a template, or with records of its own and no combining, an ingress gets only its own records. |
| IngressSource.CombinedRecords | source/ingress_test.go:746-796 | With combining, the templated records follow the ingress's own. |
| IngressSource.NoTargetsNoIngressRecords | source/ingress_test.go:1169-1186 | An ingress without targets gets no record, template or not. |
| IngressSource.TemplateUsedIff | source/ingress_test.go:674-702 | Without combining, the template names the records exactly when the ingress has targets but no candidate host with a valid name. Otherwise its own records stand. |
| IngressSource.ClassPrecedence | source/ingress_test.go:1255-1365 | The class field decides whenever it is set. The legacy annotation decides only when the field is empty. |
| IngressSource.AcceptedConfigUsesOneSelection | source/ingress_test.go:88-140 | An accepted configuration applies at most one of the filter gate and the class gate. |
| Labels.Matches | source/ingress_test.go:1366-1403 | A label set matches a selector when it meets every requirement. `PairSelector` and `SetSelector` prove the two forms in use. |
| Labels.PairSelector | source/ingress_test.go:1366-1403 | A one-pair selector matches a label set exactly when the set maps the key to the value. |
| Labels.SetSelector | source/ingress_test.go:538-577 | `k in (v1, ...)` matches exactly when the set maps k to one of the values. |
| IngressTables.OneRuleHostOneLbHostname | source/ingress_test.go:154-166 | One rule host and one load-balancer host name give exactly one CNAME record. |
| IngressTables.OneRuleHostOneLbIp | source/ingress_test.go:168-179 | One rule host and one IPv4 entry give exactly one A record. |
| IngressTables.OneRuleHostOneLbIpv6 | source/ingress_test.go:182-192 | One rule host and one IPv6 entry give exactly one AAAA record. |
| IngressTables.OneRuleHostAllFamilies | source/ingress_test.go:196-219 | Two IPv4, two IPv6 and two host-name entries give one A, one AAAA and one CNAME record for the host, each holding its group in entry order. |
| IngressTables.NoRuleHost | source/ingress_test.go:221-227 | No rule host: no records, whatever the targets. |
| IngressTables.OneEmptyRuleHost | source/ingress_test.go:229-236 | An empty rule host is no host: no records. |
| IngressTables.NoTargets | source/ingress_test.go:238-243 | No targets: no records. |
| IngressTables.IgnoreRulesOneRuleHost | source/ingress_test.go:245-253 | With the rules ignored, an ingress whose only host is a rule host gets no records. |
| IngressTables.InvalidHostnameNoEndpoints | source/ingress_test.go:254-259 | A host with a 65-character label gets no records, with no targets as in the row and also with an IPv4 target. |
| IngressTables.LongHostNoRecords | source/ingress_test.go:254-259 | The host with the 65-character label gets no records, whatever IPv4 or IPv6 entries the load balancer reports. |
| IngressTables.NoSourceModeRuleAndAnnotationHost | source/ingress_test.go:276-294 | Without a source mode, the rule host's CNAME comes first, then the annotation host's. This covers rows 276-294 and 310-328, which are the same row. |
| IngressTables.NoSourceModeRuleHost | source/ingress_test.go:296-308 | Without a source mode or annotation, the rule host's CNAME alone. |
| IngressTables.DefinedHostsOnlyMode | source/ingress_test.go:330-343 | `defined-hosts-only`: the rule host's CNAME alone. |
| IngressTables.AnnotationOnlyMode | source/ingress_test.go:345-358 | `annotation-only`: the annotation host's CNAME alone. |
| SourceTables.SuiteResourceLabel | source/ingress_test.go:43-77 | The suite's configuration is accepted, and every record it returns carries the label `ingress/default/foo-with-targets`. |
| SourceTables.FilterAloneAccepted | source/ingress_test.go:99-103 | An annotation filter alone is accepted. |
| SourceTables.ClassNamesAloneAccepted | source/ingress_test.go:104-108 | A class-name list alone is accepted. |
| SourceTables.FilterWithClassNamesRefused | source/ingress_test.go:109-114 | An annotation filter with class names is refused. |
| SourceTables.NoIngress | source/ingress_test.go:387-390 | No ingress: no records. |
| SourceTables.TwoSimpleIngresses | source/ingress_test.go:391-420 | Two ingresses give their A record and then their CNAME record. |
| SourceTables.Ipv6Ingress | source/ingress_test.go:421-438 | An IPv6 entry gives an AAAA record. |
| SourceTables.DualstackIngress | source/ingress_test.go:439-462 | An IPv4 and an IPv6 entry give an A and then an AAAA record. |
| SourceTables.IgnoreRules | source/ingress_test.go:463-482 | With the rules ignored, ingresses whose only hosts are rule hosts give no records. |
| SourceTables.DifferentNamespaces | source/ingress_test.go:483-512 | Without a target namespace, ingresses of both namespaces contribute. |
| SourceTables.TargetNamespace | source/ingress_test.go:513-537 | A target namespace keeps only the ingresses that live in it. |
| SourceTables.FilterSetMatches | source/ingress_test.go:538-560 | A class annotation in the filter's set admits the ingress. |
| SourceTables.FilterSetDoesNotMatch | source/ingress_test.go:561-577 | A class annotation outside the filter's set excludes the ingress. |
| SourceTables.InvalidFilter | source/ingress_test.go:578-595 | A filter that does not parse fails the call. |
| SourceTables.FilterLabelMatches | source/ingress_test.go:596-618 | A class annotation equal to the filter's value admits the ingress. |
| SourceTables.FilterLabelDoesNotMatch | source/ingress_test.go:619-635 | A class annotation other than the filter's value excludes the ingress. |
| SourceTables.OurController | source/ingress_test.go:636-657 | An ingress claimed by `dns-controller` contributes. |
| SourceTables.OtherController | source/ingress_test.go:658-673 | An ingress claimed by another controller is skipped. |
| SourceTables.TemplateForMissingHost | source/ingress_test.go:674-702 | Without a host, the template names the records of both targets. |
| SourceTables.OtherControllerWithTemplate | source/ingress_test.go:703-719 | Another controller's ingress is skipped even with a template. |
| SourceTables.TemplateOfTwoNames | source/ingress_test.go:720-745 | A template of two names gives an A record for each, in template order. |
| SourceTables.CombinedTemplate | source/ingress_test.go:746-796 | With combining, an ingress with its own record gets the templated ones after it. One without gets only the templated ones. |
| SourceTables.TargetAnnotation | source/ingress_test.go:797-846 | The target annotation sets the records' targets and, by its value's family, their type. |
| SourceTables.TlsSingleHost | source/ingress_test.go:847-865 | A TLS block's host gets a record. |
| SourceTables.TlsBlockOfTwoHosts | source/ingress_test.go:866-889 | Every host of a TLS block gets a record, in block order. |
| SourceTables.TlsBlocksOfTwoHosts | source/ingress_test.go:890-923 | The hosts of several TLS blocks get records, block after block. |
| SourceTables.HostnameAnnotation | source/ingress_test.go:924-950 | The hostname annotation's host follows the rule host. |
| SourceTables.HostnameAnnotationOfTwoHosts | source/ingress_test.go:951-982 | The annotation's two hosts follow the rule host in the order listed. |
| SourceTables.HostnameAndTargetAnnotations | source/ingress_test.go:983-1010 | The target annotation applies to the annotation's hosts as well. |
| SourceTables.CustomTtl | source/ingress_test.go:1011-1066 | The TTL annotation `"6"`, `"1"` or `"10s"` sets each record's TTL to 6, 1 or 10. |
| SourceTables.AliasTrue | source/ingress_test.go:1067-1092 | An alias flag of `"true"` puts the one pair (`alias`, `true`) on the CNAME record. |
| SourceTables.AliasFalse | source/ingress_test.go:1093-1115 | An alias flag of `"false"` puts no pair on the record. |
| SourceTables.TemplateWithTargetAnnotation | source/ingress_test.go:1116-1168 | Templated names take the target annotation's targets. |
| SourceTables.EmptyTargetAnnotation | source/ingress_test.go:1169-1186 | An empty target annotation leaves the ingress without records, even with a template. |
| SourceTables.IgnoreHostnameAnnotation | source/ingress_test.go:1187-1220 | Ignoring the hostname annotation leaves only the rule hosts. |
| SourceTables.IgnoreTls | source/ingress_test.go:1221-1234 | Ignoring TLS sections leaves a TLS-only ingress without records. |
| SourceTables.ReadTls | source/ingress_test.go:1235-1254 | Reading TLS sections, their hosts get records. |
| SourceTables.IngressClassNames | source/ingress_test.go:1255-1365 | A class list keeps exactly the ingresses of those classes, in list order. The class field is read first, and the legacy annotation only when the field is empty. |
| SourceTables.MatchingLabels | source/ingress_test.go:1366-1386 | A label selector keeps an ingress whose labels match it. |
| SourceTables.NonMatchingLabels | source/ingress_test.go:1387-1403 | A label selector drops an ingress whose labels do not match it. |

## Left out

- The Kubernetes client, the informer cache, contexts and the create calls.
  These are I/O. In the model, the ingress list is an input sequence.
- `t.Parallel()` and `suite.Run`: test-harness concurrency.
- The label-selector and annotation-filter grammar. A selector arrives
  already parsed into `key=value` and `key in (...)` requirements. A filter
  that does not parse is the value `Unparsable`.
- Go `text/template`. Only the `{{.Name}}` action is modelled, with the
  comma split and trim around it. Template parse errors are not modelled.
- `net.ParseIP`: IPv4 is four decimal octets. IPv6 is three to eight
  hexadecimal groups with an empty group when there are fewer than eight.
  The position and number of `::` are not checked.
- `time.ParseDuration` beyond plain digits or digits followed by `s`. Any
  other TTL form gives no TTL.
- The character set of DNS names. Only the lengths and white space at the
  ends are checked.
- The targets' trailing dots. Targets are kept as given.
- `validateEndpoints`, the test's comparison helper, is not part of this
  model. The row lemmas state one exact order. They do not state which
  other orders the test would also accept.
- Labels other than the resource label. The tables compare none.
- The ingress-class resource (`IngressClass` objects, default class). Only
  the class name on the ingress and the legacy annotation are read.
- Addresses.ClassifyMeaning: says nothing about literals outside the
  simplified IPv4/IPv6 notations above.
