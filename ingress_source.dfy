/**
 * The ingress source: construction-time validation of its configuration, the
 * admission gates an ingress must pass, the FQDN-template fallback, and
 * `Endpoints`, which concatenates the records of every admitted ingress in
 * list order.
 */
module IngressSource {
  import opened Wrappers
  import opened Strings
  import opened Networking
  import opened Endpoint
  import opened Annotations
  import opened Labels
  import opened Fqdn
  import opened Targets
  import opened Hosts
  import opened IngressEndpoints

  /**
   * The annotation filter as configured: none (""), a selector, or text that
   * does not parse as a selector.
   */
  datatype AnnotationFilter = NoFilter | Filter(selector: Selector) | Unparsable

  /** The configuration `NewIngressSource` receives. `fqdnTemplate` is "" for no template. */
  datatype Config = Config(
    namespace: string,
    annotationFilter: AnnotationFilter,
    fqdnTemplate: string,
    combineFQDNAndAnnotation: bool,
    flags: Flags,
    labelSelector: Selector,
    ingressClassNames: seq<string>)

  datatype SourceError = FilterWithClassNames | InvalidAnnotationFilter

  /**
   * `NewIngressSource`: an annotation filter and an ingress-class list are two
   * ways of choosing ingresses and may not be combined; everything else is
   * accepted as given.
   */
  function NewIngressSource(cfg: Config): (r: Result<Config, SourceError>)
    ensures r.Failure? <==> !cfg.annotationFilter.NoFilter? && |cfg.ingressClassNames| > 0
    ensures r.Failure? ==> r.error == FilterWithClassNames
    ensures r.Success? ==> r.value == cfg
  {
    if !cfg.annotationFilter.NoFilter? && |cfg.ingressClassNames| > 0 then Failure(FilterWithClassNames)
    else Success(cfg)
  }

  /** The class of an ingress: its class name field when set, else the legacy class annotation. */
  function EffectiveClass(ing: Ingress): Option<string>
  {
    if ing.spec.ingressClassName != "" then Some(ing.spec.ingressClassName)
    else if IngressClassKey in ing.meta.annotations then Some(ing.meta.annotations[IngressClassKey])
    else None
  }

  /** The class gate: no list admits everything, a list admits the classes it names. */
  predicate ClassAdmits(classNames: seq<string>, ing: Ingress)
  {
    |classNames| == 0 || (EffectiveClass(ing).Some? && EffectiveClass(ing).value in classNames)
  }

  /** The annotation-filter gate: the annotations, read as a label set, match the filter. */
  predicate FilterAdmits(filter: AnnotationFilter, ing: Ingress)
  {
    match filter
    case NoFilter => true
    case Filter(sel) => Matches(sel, ing.meta.annotations)
    case Unparsable => false
  }

  predicate InNamespace(namespace: string, ing: Ingress)
  {
    namespace == "" || ing.meta.namespace == namespace
  }

  /** All gates: namespace, class, annotation filter, label selector and controller ownership. */
  predicate Admitted(cfg: Config, ing: Ingress)
  {
    && InNamespace(cfg.namespace, ing)
    && ClassAdmits(cfg.ingressClassNames, ing)
    && FilterAdmits(cfg.annotationFilter, ing)
    && Matches(cfg.labelSelector, ing.meta.labels)
    && ControlledByUs(ing.meta.annotations)
  }

  /** The records for the names the template gives the ingress, with the ingress's own targets. */
  function TemplateEndpoints(template: string, ing: Ingress): seq<Endpoint>
  {
    EndpointsForHosts(
      ExecTemplate(template, ing.meta.name),
      ResolveGroups(ing.meta.annotations, ing.loadBalancer),
      OptionsOf(ing))
  }

  /**
   * The records of one admitted ingress: its own, and the templated ones when
   * a template is set and either its own are none or combining is asked for.
   */
  function IngressRecords(cfg: Config, ing: Ingress): seq<Endpoint>
  {
    var own := EndpointsFromIngress(ing, cfg.flags);
    if cfg.fqdnTemplate != "" && (cfg.combineFQDNAndAnnotation || own == []) then
      (if cfg.combineFQDNAndAnnotation then own else []) + TemplateEndpoints(cfg.fqdnTemplate, ing)
    else own
  }

  /** The records of every admitted ingress, in list order. */
  function Collect(cfg: Config, ingresses: seq<Ingress>): seq<Endpoint>
  {
    if |ingresses| == 0 then []
    else (if Admitted(cfg, ingresses[0]) then IngressRecords(cfg, ingresses[0]) else [])
         + Collect(cfg, ingresses[1..])
  }

  /** `Endpoints`: an unparsable annotation filter fails the call; otherwise the collected records. */
  function Endpoints(cfg: Config, ingresses: seq<Ingress>): (r: Result<seq<Endpoint>, SourceError>)
    ensures r.Failure? <==> cfg.annotationFilter.Unparsable?
    ensures r.Failure? ==> r.error == InvalidAnnotationFilter
  {
    if cfg.annotationFilter.Unparsable? then Failure(InvalidAnnotationFilter) else Success(Collect(cfg, ingresses))
  }

  /** The records of a split list are the records of its two parts. */
  lemma {:induction false} CollectAppend(cfg: Config, a: seq<Ingress>, b: seq<Ingress>)
    ensures Collect(cfg, a + b) == Collect(cfg, a) + Collect(cfg, b)
    decreases |a|
  {
    if |a| == 0 {
      assert a + b == b;
    } else {
      assert (a + b)[0] == a[0];
      assert (a + b)[1..] == a[1..] + b;
      CollectAppend(cfg, a[1..], b);
    }
  }

  /** An ingress that fails a gate contributes nothing: removing it changes no record. */
  lemma ExcludedContributesNothing(cfg: Config, a: seq<Ingress>, ing: Ingress, b: seq<Ingress>)
    requires !Admitted(cfg, ing)
    ensures Collect(cfg, a + [ing] + b) == Collect(cfg, a + b)
  {
    CollectAppend(cfg, a + [ing], b);
    CollectAppend(cfg, a, [ing]);
    CollectAppend(cfg, a, b);
    assert Collect(cfg, [ing]) == [] by {
      assert [ing][1..] == [];
    }
  }

  /** Every record of one ingress is well formed and labelled with that ingress's identity. */
  lemma IngressRecordsWellFormed(cfg: Config, ing: Ingress)
    ensures forall e :: e in IngressRecords(cfg, ing) ==> WellFormed(e, Resource(ing.meta))
  {
    EndpointsFromIngressWellFormed(ing, cfg.flags);
    ResolveGroupsHomogeneous(ing.meta.annotations, ing.loadBalancer);
    HostsRecordsWellFormed(ExecTemplate(cfg.fqdnTemplate, ing.meta.name),
                           ResolveGroups(ing.meta.annotations, ing.loadBalancer), OptionsOf(ing));
  }

  /**
   * Every record of `Endpoints` is well formed and bears the resource label of
   * an admitted ingress of the list, so it lies in the configured namespace.
   */
  lemma {:induction false} CollectedRecordsWellFormed(cfg: Config, ingresses: seq<Ingress>)
    ensures forall e :: e in Collect(cfg, ingresses) ==>
              exists ing :: ing in ingresses && Admitted(cfg, ing) && WellFormed(e, Resource(ing.meta))
    decreases |ingresses|
  {
    if |ingresses| > 0 {
      var ing := ingresses[0];
      CollectedRecordsWellFormed(cfg, ingresses[1..]);
      IngressRecordsWellFormed(cfg, ing);
      assert ing in ingresses;
      assert forall i :: i in ingresses[1..] ==> i in ingresses;
    }
  }

  /** Every record `Endpoints` returns carries the resource label. */
  lemma ResourceLabelIsSet(cfg: Config, ingresses: seq<Ingress>)
    requires Endpoints(cfg, ingresses).Success?
    ensures forall e :: e in Endpoints(cfg, ingresses).value ==>
              ResourceLabelKey in e.labels
              && exists ing :: (ing in ingresses && e.labels[ResourceLabelKey] == Resource(ing.meta)
                                && InNamespace(cfg.namespace, ing))
  {
    CollectedRecordsWellFormed(cfg, ingresses);
  }

  /** Without a template, or with its own records and no combining, an ingress gets only its own records. */
  lemma OwnRecordsFirst(cfg: Config, ing: Ingress)
    requires cfg.fqdnTemplate == "" || (!cfg.combineFQDNAndAnnotation && EndpointsFromIngress(ing, cfg.flags) != [])
    ensures IngressRecords(cfg, ing) == EndpointsFromIngress(ing, cfg.flags)
  {
  }

  /** With combining, the templated records follow the ingress's own. */
  lemma CombinedRecords(cfg: Config, ing: Ingress)
    requires cfg.fqdnTemplate != "" && cfg.combineFQDNAndAnnotation
    ensures IngressRecords(cfg, ing) == EndpointsFromIngress(ing, cfg.flags) + TemplateEndpoints(cfg.fqdnTemplate, ing)
  {
  }

  /**
   * An ingress without targets gets no record at all, template or not; in
   * particular a present target annotation with no entries suppresses records.
   */
  lemma NoTargetsNoIngressRecords(cfg: Config, ing: Ingress)
    requires IsEmpty(ResolveGroups(ing.meta.annotations, ing.loadBalancer))
    ensures IngressRecords(cfg, ing) == []
  {
    NoTargetsNoRecords(CollectHosts(ing, cfg.flags), ResolveGroups(ing.meta.annotations, ing.loadBalancer), OptionsOf(ing));
    NoTargetsNoRecords(ExecTemplate(cfg.fqdnTemplate, ing.meta.name), ResolveGroups(ing.meta.annotations, ing.loadBalancer), OptionsOf(ing));
  }

  /**
   * Without combining, the template is turned to exactly when the ingress has
   * targets but no candidate host with a valid name.
   */
  lemma TemplateUsedIff(cfg: Config, ing: Ingress)
    requires cfg.fqdnTemplate != "" && !cfg.combineFQDNAndAnnotation
    ensures NeedsTemplate(cfg, ing) ==> IngressRecords(cfg, ing) == TemplateEndpoints(cfg.fqdnTemplate, ing)
    ensures !NeedsTemplate(cfg, ing) ==> IngressRecords(cfg, ing) == EndpointsFromIngress(ing, cfg.flags)
  {
    var g := ResolveGroups(ing.meta.annotations, ing.loadBalancer);
    var own := EndpointsFromIngress(ing, cfg.flags);
    NoRecordsIff(CollectHosts(ing, cfg.flags), g, OptionsOf(ing));
    if own == [] && IsEmpty(g) {
      NoTargetsNoRecords(ExecTemplate(cfg.fqdnTemplate, ing.meta.name), g, OptionsOf(ing));
    }
  }

  /** An ingress with targets but no candidate host whose name is valid. */
  predicate NeedsTemplate(cfg: Config, ing: Ingress)
  {
    && !IsEmpty(ResolveGroups(ing.meta.annotations, ing.loadBalancer))
    && forall h :: h in CollectHosts(ing, cfg.flags) ==> !ValidDNSName(TrimSuffix(h, '.'))
  }

  /**
   * The class field wins over the legacy annotation whenever it is set; the
   * annotation decides only when the field is empty.
   */
  lemma ClassPrecedence(classNames: seq<string>, ing: Ingress)
    ensures ing.spec.ingressClassName != "" ==>
              (ClassAdmits(classNames, ing) <==> |classNames| == 0 || ing.spec.ingressClassName in classNames)
    ensures ing.spec.ingressClassName == "" ==>
              (ClassAdmits(classNames, ing) <==>
                 |classNames| == 0
                 || (IngressClassKey in ing.meta.annotations && ing.meta.annotations[IngressClassKey] in classNames))
  {
  }

  /** A configuration `NewIngressSource` accepts never applies both the filter and the class gate. */
  lemma AcceptedConfigUsesOneSelection(cfg: Config, ing: Ingress)
    requires NewIngressSource(cfg).Success?
    ensures !cfg.annotationFilter.NoFilter? ==> ClassAdmits(cfg.ingressClassNames, ing)
    ensures |cfg.ingressClassNames| > 0 ==> FilterAdmits(cfg.annotationFilter, ing)
  {
  }
}
