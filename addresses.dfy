/**
 * Classification of a target string as an IPv4 address, an IPv6 address or
 * neither; it decides whether a target becomes an A, an AAAA or a CNAME record.
 * The IPv6 test checks the character set, the group width and the group count,
 * not the placement of `::` (see "Left out" in README.md).
 */
module Addresses {
  import opened Strings

  datatype Family = IPv4 | IPv6 | NotAnAddress

  /** A decimal octet: one to three digits, no leading zero, at most 255. */
  predicate IsOctet(p: string)
  {
    1 <= |p| <= 3 && AllDigits(p) && (|p| > 1 ==> p[0] != '0') && DecimalValue(p) <= 255
  }

  /** Dotted-quad notation: exactly four octets separated by dots. */
  predicate IsIPv4(s: string)
  {
    var parts := Split(s, '.');
    |parts| == 4 && IsOctet(parts[0]) && IsOctet(parts[1]) && IsOctet(parts[2]) && IsOctet(parts[3])
  }

  predicate IsHexDigit(c: char)
  {
    IsDigit(c) || 'a' <= c <= 'f' || 'A' <= c <= 'F'
  }

  /** One colon-separated IPv6 group: at most four hexadecimal digits. */
  predicate IsHexGroup(g: string)
  {
    |g| <= 4 && forall c :: c in g ==> IsHexDigit(c)
  }

  /**
   * Colon-hex notation: three to eight groups of hexadecimal digits; an empty
   * group (a `::`) is needed when there are fewer than eight.
   */
  predicate IsIPv6(s: string)
  {
    var groups := Split(s, ':');
    3 <= |groups| <= 8 && AllHexGroups(groups) && ("" !in groups ==> |groups| == 8)
  }

  /** Every group is a hexadecimal group: the recursive form of the quantified statement. */
  predicate AllHexGroups(groups: seq<string>)
    decreases |groups|
  {
    |groups| == 0 || (IsHexGroup(groups[0]) && AllHexGroups(groups[1..]))
  }

  /** `AllHexGroups` says that every group is hexadecimal. */
  lemma {:induction false} AllHexGroupsMeaning(groups: seq<string>)
    ensures AllHexGroups(groups) <==> forall g :: g in groups ==> IsHexGroup(g)
    decreases |groups|
  {
    if |groups| > 0 {
      AllHexGroupsMeaning(groups[1..]);
      assert groups == [groups[0]] + groups[1..];
    }
  }

  /** The address family of a target; an IPv4 literal is never taken for IPv6. */
  function Classify(s: string): Family
  {
    if IsIPv4(s) then IPv4 else if IsIPv6(s) then IPv6 else NotAnAddress
  }

  /** Because the notations are disjoint, each family is exactly its notation. */
  lemma ClassifyMeaning(s: string)
    ensures Classify(s) == IPv4 <==> IsIPv4(s)
    ensures Classify(s) == IPv6 <==> IsIPv6(s)
    ensures Classify(s) == NotAnAddress <==> !IsIPv4(s) && !IsIPv6(s)
  {
    FamiliesAreDisjoint(s);
  }

  /** An IPv4 literal consists of digits and dots only. */
  lemma IPv4Characters(s: string)
    requires IsIPv4(s)
    ensures forall c :: c in s ==> IsDigit(c) || c == '.'
  {
    var parts := Split(s, '.');
    JoinSplit(s, '.');
    assert parts == [parts[0], parts[1], parts[2], parts[3]];
    forall c | c in s ensures IsDigit(c) || c == '.' {
      JoinCharacters(parts, '.', c);
    }
  }

  /** An IPv6 literal consists of hexadecimal digits and colons only, and has a colon. */
  lemma IPv6Characters(s: string)
    requires IsIPv6(s)
    ensures forall c :: c in s ==> IsHexDigit(c) || c == ':'
    ensures ':' in s
  {
    var groups := Split(s, ':');
    JoinSplit(s, ':');
    JoinHasSeparator(groups, ':');
    AllHexGroupsMeaning(groups);
    forall c | c in s ensures IsHexDigit(c) || c == ':' {
      JoinCharacters(groups, ':', c);
    }
  }

  /** The two notations are disjoint. */
  lemma FamiliesAreDisjoint(s: string)
    ensures !(IsIPv4(s) && IsIPv6(s))
  {
    if IsIPv4(s) && IsIPv6(s) {
      IPv4Characters(s);
      IPv6Characters(s);
      assert false;
    }
  }

  /** A string with no colon and some character other than a digit or a dot is a host name. */
  lemma NameIsNotAnAddress(s: string, c: char)
    requires ':' !in s
    requires c in s && !IsDigit(c) && c != '.'
    ensures Classify(s) == NotAnAddress
  {
    if IsIPv4(s) {
      IPv4Characters(s);
    }
    if IsIPv6(s) {
      IPv6Characters(s);
    }
  }

  /** Four octets joined by dots form an IPv4 literal. */
  lemma IPv4Literal(s: string, a: string, b: string, c: string, d: string)
    requires s == a + "." + b + "." + c + "." + d
    requires IsOctet(a) && IsOctet(b) && IsOctet(c) && IsOctet(d)
    ensures Classify(s) == IPv4
  {
    var parts := [a, b, c, d];
    assert Join(parts, '.') == s by {
      assert Join(parts[3..], '.') == d;
      assert Join(parts[2..], '.') == c + "." + d;
      assert Join(parts[1..], '.') == b + "." + c + "." + d;
    }
    forall p | p in parts ensures '.' !in p {
      assert IsOctet(p);
    }
    SplitJoin(parts, '.');
  }

  /** Hexadecimal groups joined by colons form an IPv6 literal. */
  lemma IPv6Literal(s: string, groups: seq<string>)
    requires s == Join(groups, ':')
    requires 3 <= |groups| <= 8
    requires forall g :: g in groups ==> IsHexGroup(g)
    requires "" !in groups ==> |groups| == 8
    ensures Classify(s) == IPv6
  {
    forall g | g in groups ensures ':' !in g {
      assert IsHexGroup(g);
    }
    SplitJoin(groups, ':');
    AllHexGroupsMeaning(groups);
    JoinHasSeparator(groups, ':');
    if IsIPv4(s) {
      IPv4Characters(s);
    }
  }
}
