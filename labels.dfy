/**
 * Parsed label selectors, used both for the ingress label selector and for the
 * annotation filter (which is matched against the annotations as a label set).
 * Parsing the selector language is left to the caller: a selector arrives here
 * already parsed into requirements.
 */
module Labels {

  /** `key=value` and `key in (v1, v2, ...)`. */
  datatype Requirement = Equals(key: string, value: string) | In(key: string, values: set<string>)

  /** A conjunction of requirements; the empty one is `labels.Everything()`. */
  type Selector = seq<Requirement>

  const Everything: Selector := []

  predicate RequirementMatches(r: Requirement, m: map<string, string>)
  {
    match r
    case Equals(k, v) => k in m && m[k] == v
    case In(k, vs) => k in m && m[k] in vs
  }

  /** A label set matches when it meets every requirement. */
  predicate Matches(sel: Selector, m: map<string, string>)
  {
    forall r :: r in sel ==> RequirementMatches(r, m)
  }

  /** `labels.SelectorFromSet({k: v})` for one pair: a label set matches exactly when it maps k to v. */
  lemma PairSelector(k: string, v: string, m: map<string, string>)
    ensures Matches([Equals(k, v)], m) <==> k in m && m[k] == v
  {
    assert Equals(k, v) in [Equals(k, v)];
  }

  /** `k in (v1, v2, ...)` alone: a label set matches exactly when it maps k to one of the values. */
  lemma SetSelector(k: string, vs: set<string>, m: map<string, string>)
    ensures Matches([In(k, vs)], m) <==> k in m && m[k] in vs
  {
    assert In(k, vs) in [In(k, vs)];
  }
}
