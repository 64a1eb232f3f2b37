/**
 * DNS endpoint records as the controller's `endpoint` package describes them,
 * and the hostname check that decides whether a record can be built.
 */
module Endpoint {
  import opened Wrappers
  import opened Strings

  datatype RecordType = A | AAAA | CNAME

  /** A provider-specific extension pair such as (alias, true). */
  datatype ProviderSpecificProperty = ProviderSpecificProperty(name: string, value: string)

  /**
   * One DNS record description. `recordTTL` is None when no TTL is configured
   * (the provider's default applies).
   */
  datatype Endpoint = Endpoint(
    dnsName: string,
    recordType: RecordType,
    targets: seq<string>,
    recordTTL: Option<nat>,
    providerSpecific: seq<ProviderSpecificProperty>,
    labels: map<string, string>)

  /** The label key under which every record names the resource it came from. */
  const ResourceLabelKey: string := "resource"

  /**
   * A DNS name the controller accepts: not empty, at most 253 characters, no
   * dot-separated label over 63 characters, and no white space at either end.
   */
  predicate ValidDNSName(name: string)
  {
    0 < |name| <= 253 && !IsSpace(name[0]) && !IsSpace(name[|name| - 1])
    && LabelsFit(Split(name, '.'))
  }

  /** No label is longer than 63 characters. */
  predicate LabelsFit(labels: seq<string>)
    decreases |labels|
  {
    |labels| == 0 || (|labels[0]| <= 63 && LabelsFit(labels[1..]))
  }

  /** `LabelsFit` says that no label exceeds 63 characters. */
  lemma {:induction false} LabelsFitMeaning(labels: seq<string>)
    ensures LabelsFit(labels) <==> forall l :: l in labels ==> |l| <= 63
    decreases |labels|
  {
    if |labels| > 0 {
      LabelsFitMeaning(labels[1..]);
      assert labels == [labels[0]] + labels[1..];
    }
  }

  /**
   * `NewEndpointWithTTL`: drops one trailing dot from the name and refuses a
   * name that is not valid; the record starts with no extensions and no labels.
   */
  function NewEndpoint(dnsName: string, recordType: RecordType, ttl: Option<nat>, targets: seq<string>): (r: Option<Endpoint>)
    ensures r.Some? <==> ValidDNSName(TrimSuffix(dnsName, '.'))
    ensures r.Some? ==> r.value == Endpoint(TrimSuffix(dnsName, '.'), recordType, targets, ttl, [], map[])
  {
    var name := TrimSuffix(dnsName, '.');
    if ValidDNSName(name) then Some(Endpoint(name, recordType, targets, ttl, [], map[])) else None
  }

  /** A name of at most 63 characters without white space at its ends is accepted. */
  lemma ShortNameIsValid(name: string)
    requires 0 < |name| <= 63 && !IsSpace(name[0]) && !IsSpace(name[|name| - 1])
    ensures ValidDNSName(name)
  {
    SplitPiecesAreShorter(name, '.');
    LabelsFitMeaning(Split(name, '.'));
  }

  /** A name whose first label is longer than 63 characters is refused. */
  lemma LongFirstLabelIsInvalid(first: string, rest: string)
    requires '.' !in first && |first| > 63
    ensures !ValidDNSName(first + "." + rest)
  {
    SplitAtFirstSeparator(first, rest, '.');
    assert first + "." + rest == first + ['.'] + rest;
    assert Split(first + "." + rest, '.')[0] == first;
  }

  /** A blank name is refused, whatever its length. */
  lemma BlankNameIsInvalid(name: string)
    requires forall c :: c in name ==> IsSpace(c)
    ensures !ValidDNSName(name)
  {
    if |name| > 0 {
      assert name[0] in name;
    }
  }
}
