/**
 * The few operations of Go's `strings` and `strconv` packages that the ingress
 * source relies on, over `string` = `seq<char>`, with the facts about them that
 * the rest of the model uses.
 */
module Strings {

  /** `strings.Join(parts, string(sep))`. */
  function Join(parts: seq<string>, sep: char): string
  {
    if |parts| == 0 then ""
    else if |parts| == 1 then parts[0]
    else parts[0] + [sep] + Join(parts[1..], sep)
  }

  /** `strings.Split(s, string(sep))`: the pieces between separators, never an empty list. */
  function Split(s: string, sep: char): (parts: seq<string>)
    ensures |parts| >= 1
    decreases |s|
  {
    if |s| == 0 then [""]
    else
      var rest := Split(s[1..], sep);
      if s[0] == sep then [""] + rest
      else [[s[0]] + rest[0]] + rest[1..]
  }

  /** No piece Split returns contains the separator. */
  lemma {:induction false} SplitPiecesHaveNoSeparator(s: string, sep: char)
    ensures forall p :: p in Split(s, sep) ==> sep !in p
    decreases |s|
  {
    if |s| > 0 {
      SplitPiecesHaveNoSeparator(s[1..], sep);
      var rest := Split(s[1..], sep);
      if s[0] != sep {
        assert forall p :: p in rest[1..] ==> p in rest;
        assert rest[0] in rest;
      }
    }
  }

  /** No piece Split returns is longer than its input. */
  lemma {:induction false} SplitPiecesAreShorter(s: string, sep: char)
    ensures forall p :: p in Split(s, sep) ==> |p| <= |s|
    decreases |s|
  {
    if |s| > 0 {
      SplitPiecesAreShorter(s[1..], sep);
      var rest := Split(s[1..], sep);
      if s[0] != sep {
        assert forall p :: p in rest[1..] ==> p in rest;
        assert rest[0] in rest;
      }
    }
  }

  /** A string without the separator splits into itself. */
  lemma {:induction false} SplitWithoutSeparator(s: string, sep: char)
    requires sep !in s
    ensures Split(s, sep) == [s]
    decreases |s|
  {
    if |s| > 0 {
      assert s[1..] + [] == s[1..];
      assert sep !in s[1..] by { assert forall c :: c in s[1..] ==> c in s; }
      SplitWithoutSeparator(s[1..], sep);
      assert [s[0]] + s[1..] == s;
    }
  }

  /** Splitting at the first separator: the piece before it, then the pieces of the rest. */
  lemma {:induction false} SplitAtFirstSeparator(a: string, b: string, sep: char)
    requires sep !in a
    ensures Split(a + [sep] + b, sep) == [a] + Split(b, sep)
    decreases |a|
  {
    if |a| == 0 {
      assert a + [sep] + b == [sep] + b;
      assert ([sep] + b)[1..] == b;
    } else {
      var s := a + [sep] + b;
      assert s[1..] == a[1..] + [sep] + b;
      assert sep !in a[1..] by { assert forall c :: c in a[1..] ==> c in a; }
      SplitAtFirstSeparator(a[1..], b, sep);
      assert [a[0]] + a[1..] == a;
    }
  }

  /** Split undoes Join when no piece holds the separator. */
  lemma {:induction false} SplitJoin(parts: seq<string>, sep: char)
    requires |parts| >= 1
    requires forall p :: p in parts ==> sep !in p
    ensures Split(Join(parts, sep), sep) == parts
    decreases |parts|
  {
    if |parts| == 1 {
      SplitWithoutSeparator(parts[0], sep);
    } else {
      assert forall p :: p in parts[1..] ==> p in parts;
      SplitJoin(parts[1..], sep);
      SplitAtFirstSeparator(parts[0], Join(parts[1..], sep), sep);
      assert [parts[0]] + parts[1..] == parts;
    }
  }

  /** Join undoes Split: splitting loses nothing. */
  lemma {:induction false} JoinSplit(s: string, sep: char)
    ensures Join(Split(s, sep), sep) == s
    decreases |s|
  {
    if |s| > 0 {
      JoinSplit(s[1..], sep);
      var rest := Split(s[1..], sep);
      if s[0] == sep {
        assert ([""] + rest)[1..] == rest;
        assert [s[0]] + s[1..] == s;
      } else {
        var parts := [[s[0]] + rest[0]] + rest[1..];
        assert parts[1..] == rest[1..];
        if |rest| == 1 {
          assert s == [s[0]] + rest[0];
        } else {
          assert Join(rest, sep) == rest[0] + [sep] + Join(rest[1..], sep);
          assert s == [s[0]] + s[1..];
        }
      }
    }
  }

  /** Every character of a joined string is the separator or a character of some piece. */
  lemma {:induction false} JoinCharacters(parts: seq<string>, sep: char, c: char)
    requires c in Join(parts, sep)
    ensures c == sep || exists p :: p in parts && c in p
    decreases |parts|
  {
    if |parts| > 1 {
      var rest := Join(parts[1..], sep);
      assert c in parts[0] + [sep] + rest;
      if c in parts[0] {
        assert parts[0] in parts;
      } else if c != sep {
        assert c in rest;
        JoinCharacters(parts[1..], sep, c);
        var p :| p in parts[1..] && c in p;
        assert p in parts;
      }
    } else {
      assert parts[0] in parts;
    }
  }

  /** Every character of every piece is in the joined string. */
  lemma {:induction false} JoinPartCharacters(parts: seq<string>, sep: char, p: string, c: char)
    requires p in parts && c in p
    ensures c in Join(parts, sep)
    decreases |parts|
  {
    if |parts| > 1 {
      if p != parts[0] {
        assert p in parts[1..];
        JoinPartCharacters(parts[1..], sep, p, c);
      }
      assert Join(parts, sep) == parts[0] + [sep] + Join(parts[1..], sep);
    }
  }

  /** Joining two or more pieces puts the separator into the result. */
  lemma JoinHasSeparator(parts: seq<string>, sep: char)
    requires |parts| >= 2
    ensures sep in Join(parts, sep)
  {
    var j := Join(parts, sep);
    assert j == parts[0] + [sep] + Join(parts[1..], sep);
    assert j[|parts[0]|] == sep;
  }

  /** The ASCII white space that `strings.TrimSpace` removes. */
  predicate IsSpace(c: char)
  {
    c == ' ' || c == '\t' || c == '\n' || c == '\r'
  }

  /** Removes leading white space. */
  function TrimLeft(s: string): (r: string)
    ensures |r| <= |s| && r == s[|s| - |r|..]
    ensures forall i :: 0 <= i < |s| - |r| ==> IsSpace(s[i])
    ensures |r| > 0 ==> !IsSpace(r[0])
    decreases |s|
  {
    if |s| > 0 && IsSpace(s[0]) then TrimLeft(s[1..]) else s
  }

  /** Removes trailing white space. */
  function TrimRight(s: string): (r: string)
    ensures |r| <= |s| && r == s[..|r|]
    ensures forall i :: |r| <= i < |s| ==> IsSpace(s[i])
    ensures |r| > 0 ==> !IsSpace(r[|r| - 1])
    decreases |s|
  {
    if |s| > 0 && IsSpace(s[|s| - 1]) then TrimRight(s[..|s| - 1]) else s
  }

  /** `strings.TrimSpace`: the result is the input less its white space at both ends. */
  function TrimSpace(s: string): (r: string)
    ensures |r| > 0 ==> !IsSpace(r[0]) && !IsSpace(r[|r| - 1])
  {
    TrimLeft(TrimRight(s))
  }

  /** TrimSpace leaves a string that neither starts nor ends with white space unchanged. */
  lemma TrimSpaceUnchanged(s: string)
    requires |s| > 0 ==> !IsSpace(s[0]) && !IsSpace(s[|s| - 1])
    ensures TrimSpace(s) == s
  {
  }

  /** TrimSpace drops white space in front of a string that has none at its ends. */
  lemma {:induction false} TrimSpaceLeading(w: string, s: string)
    requires forall c :: c in w ==> IsSpace(c)
    requires |s| > 0 && !IsSpace(s[0]) && !IsSpace(s[|s| - 1])
    ensures TrimSpace(w + s) == s
    decreases |w|
  {
    assert TrimRight(w + s) == w + s by {
      assert (w + s)[|w + s| - 1] == s[|s| - 1];
    }
    if |w| > 0 {
      assert (w + s)[1..] == w[1..] + s;
      assert w[0] in w;
      assert forall c :: c in w[1..] ==> c in w;
      TrimSpaceLeading(w[1..], s);
      assert TrimRight(w[1..] + s) == w[1..] + s by {
        assert (w[1..] + s)[|w[1..] + s| - 1] == s[|s| - 1];
      }
    }
  }

  /** What TrimSpace keeps is a part of its input. */
  lemma TrimSpaceKeepsCharacters(s: string)
    ensures forall c :: c in TrimSpace(s) ==> c in s
  {
    var r := TrimRight(s);
    assert forall c :: c in r ==> c in s;
    var l := TrimLeft(r);
    assert l == r[|r| - |l|..];
    assert forall c :: c in l ==> c in r;
  }

  /**
   * The entries of a split list, each trimmed of white space, the empty ones
   * dropped, in order.
   */
  function TrimmedEntries(parts: seq<string>): (entries: seq<string>)
    ensures |entries| <= |parts|
    ensures forall e :: e in entries ==> e != ""
  {
    if |parts| == 0 then []
    else
      var head := TrimSpace(parts[0]);
      (if head == "" then [] else [head]) + TrimmedEntries(parts[1..])
  }

  /** Two parts that are not blank give their two trimmed forms. */
  lemma TrimmedEntriesPair(p: string, q: string)
    requires TrimSpace(p) != "" && TrimSpace(q) != ""
    ensures TrimmedEntries([p, q]) == [TrimSpace(p), TrimSpace(q)]
  {
    assert [p, q][1..] == [q];
    assert [q][1..] == [];
    assert TrimmedEntries([q]) == [TrimSpace(q)] + TrimmedEntries([]);
  }

  /** Every entry is a trimmed part. */
  lemma {:induction false} TrimmedEntryOrigin(parts: seq<string>, e: string)
    requires e in TrimmedEntries(parts)
    ensures exists p :: p in parts && e == TrimSpace(p)
    decreases |parts|
  {
    var head := TrimSpace(parts[0]);
    if head != "" && e == head {
      assert parts[0] in parts;
    } else {
      assert e in TrimmedEntries(parts[1..]);
      TrimmedEntryOrigin(parts[1..], e);
      var p :| p in parts[1..] && e == TrimSpace(p);
      assert p in parts;
    }
  }

  /** Every part that is not blank survives as an entry. */
  lemma {:induction false} TrimmedEntryKept(parts: seq<string>, p: string)
    requires p in parts && TrimSpace(p) != ""
    ensures TrimSpace(p) in TrimmedEntries(parts)
    decreases |parts|
  {
    if p != parts[0] {
      assert p in parts[1..];
      TrimmedEntryKept(parts[1..], p);
    }
  }

  /**
   * A separator-delimited list as annotations and templates write it, e.g.
   * "a.example.org, b.example.org": split, trim each entry, drop the empty ones.
   */
  function SplitList(v: string, sep: char): (entries: seq<string>)
    ensures forall e :: e in entries ==> e != "" && sep !in e
  {
    var parts := Split(v, sep);
    SplitPiecesHaveNoSeparator(v, sep);
    var entries := TrimmedEntries(parts);
    assert forall e :: e in entries ==> sep !in e by {
      forall e | e in entries ensures sep !in e {
        TrimmedEntryOrigin(parts, e);
        var p :| p in parts && e == TrimSpace(p);
        TrimSpaceKeepsCharacters(p);
      }
    }
    entries
  }

  /** An entry that is already trimmed and not empty. */
  predicate IsTrimmedEntry(e: string, sep: char)
  {
    |e| > 0 && !IsSpace(e[0]) && !IsSpace(e[|e| - 1]) && sep !in e
  }

  /** Trimmed entries pass through TrimmedEntries unchanged. */
  lemma {:induction false} TrimmedEntriesOfTrimmed(entries: seq<string>, sep: char)
    requires forall e :: e in entries ==> IsTrimmedEntry(e, sep)
    ensures TrimmedEntries(entries) == entries
    decreases |entries|
  {
    if |entries| > 0 {
      var head := entries[0];
      assert IsTrimmedEntry(head, sep);
      TrimSpaceUnchanged(head);
      HeadAndTail(entries);
      TrimmedEntriesOfTrimmed(entries[1..], sep);
    }
  }

  /** A non-empty list is its head followed by its tail, and the tail's members are the list's. */
  lemma HeadAndTail<T>(s: seq<T>)
    requires |s| > 0
    ensures [s[0]] + s[1..] == s
    ensures forall x :: x in s[1..] ==> x in s
  {
  }

  /** SplitList undoes Join of trimmed, non-empty entries. */
  lemma SplitListJoin(entries: seq<string>, sep: char)
    requires |entries| >= 1
    requires forall e :: e in entries ==> IsTrimmedEntry(e, sep)
    ensures SplitList(Join(entries, sep), sep) == entries
  {
    SplitJoin(entries, sep);
    TrimmedEntriesOfTrimmed(entries, sep);
  }
  /** A trimmed entry without a comma reads as the one-entry list. */
  lemma SplitListOne(e: string)
    requires IsTrimmedEntry(e, ',')
    ensures SplitList(e, ',') == [e]
  {
    assert Join([e], ',') == e;
    SplitListJoin([e], ',');
  }

  /** "a, b" reads as the list [a, b]. */
  lemma SplitListTwo(a: string, b: string)
    requires IsTrimmedEntry(a, ',') && IsTrimmedEntry(b, ',')
    ensures SplitList(a + ", " + b, ',') == [a, b]
  {
    var b' := " " + b;
    var parts := [a, b'];
    assert Join(parts, ',') == a + ", " + b;
    assert ',' !in b' by {
      assert forall i :: 1 <= i < |b'| ==> b'[i] == b[i - 1];
    }
    SplitJoin(parts, ',');
    assert Split(a + ", " + b, ',') == parts;
    TrimSpaceUnchanged(a);
    TrimSpaceLeading(" ", b);
    TrimmedEntriesPair(a, b');
  }



  /** `strings.TrimSuffix(s, string(c))`. */
  function TrimSuffix(s: string, c: char): (r: string)
    ensures r == s || (s == r + [c])
    ensures |s| == 0 || s[|s| - 1] != c ==> r == s
  {
    if |s| > 0 && s[|s| - 1] == c then s[..|s| - 1] else s
  }

  predicate IsDigit(c: char)
  {
    '0' <= c <= '9'
  }

  /** Every character is a decimal digit (vacuously true of ""). */
  predicate AllDigits(s: string)
  {
    forall c :: c in s ==> IsDigit(c)
  }

  function DigitValue(c: char): (d: nat)
    requires IsDigit(c)
    ensures d <= 9
  {
    (c as int - '0' as int) as nat
  }

  /** The value of a string of decimal digits, the leftmost being most significant. */
  function DecimalValue(s: string): (n: nat)
    requires AllDigits(s)
    ensures n < Pow10(|s|)
    decreases |s|
  {
    if |s| == 0 then 0
    else
      assert AllDigits(s[..|s| - 1]) by { assert forall c :: c in s[..|s| - 1] ==> c in s; }
      assert s[|s| - 1] in s;
      10 * DecimalValue(s[..|s| - 1]) + DigitValue(s[|s| - 1])
  }

  function Pow10(k: nat): (p: nat)
    ensures p >= 1
  {
    if k == 0 then 1 else 10 * Pow10(k - 1)
  }

  function DigitChar(d: nat): (c: char)
    requires d <= 9
    ensures IsDigit(c) && DigitValue(c) == d
  {
    ('0' as int + d) as char
  }

  /** `strconv.Itoa` for a natural number: decimal digits, no leading zero. */
  function FormatDecimal(n: nat): (s: string)
    ensures |s| >= 1 && AllDigits(s)
    ensures |s| > 1 ==> s[0] != '0'
    decreases n
  {
    if n < 10 then [DigitChar(n)]
    else
      var prefix := FormatDecimal(n / 10);
      assert forall c :: c in prefix + [DigitChar(n % 10)] ==> c in prefix || c == DigitChar(n % 10);
      prefix + [DigitChar(n % 10)]
  }

  /** Parsing the decimal form of a number gives the number back. */
  lemma {:induction false} DecimalValueOfFormat(n: nat)
    ensures DecimalValue(FormatDecimal(n)) == n
    decreases n
  {
    if n >= 10 {
      DecimalValueOfFormat(n / 10);
      DecimalValueAppend(FormatDecimal(n / 10), DigitChar(n % 10));
    }
  }

  /** Appending a digit shifts the value one decimal place. */
  lemma DecimalValueAppend(s: string, c: char)
    requires AllDigits(s) && IsDigit(c)
    ensures AllDigits(s + [c])
    ensures DecimalValue(s + [c]) == 10 * DecimalValue(s) + DigitValue(c)
  {
    assert (s + [c])[..|s|] == s;
  }

  /** ReplaceAll(s, pat, rep): Go's `strings.ReplaceAll` for a non-empty pattern. */
  function ReplaceAll(s: string, pat: string, rep: string): string
    requires |pat| > 0
    decreases |s|
  {
    if |s| < |pat| then s
    else if s[..|pat|] == pat then rep + ReplaceAll(s[|pat|..], pat, rep)
    else [s[0]] + ReplaceAll(s[1..], pat, rep)
  }

  /** A string that cannot start an occurrence of the pattern is left alone. */
  lemma {:induction false} ReplaceAllAbsent(s: string, pat: string, rep: string)
    requires |pat| > 0 && pat[0] !in s
    ensures ReplaceAll(s, pat, rep) == s
    decreases |s|
  {
    if |s| >= |pat| {
      assert s[0] in s;
      assert s[..|pat|][0] == s[0];
      assert forall c :: c in s[1..] ==> c in s;
      ReplaceAllAbsent(s[1..], pat, rep);
      assert [s[0]] + s[1..] == s;
    }
  }

  /** A leading occurrence of the pattern is replaced and the rest is processed. */
  lemma ReplaceAllLeading(pat: string, t: string, rep: string)
    requires |pat| > 0
    ensures ReplaceAll(pat + t, pat, rep) == rep + ReplaceAll(t, pat, rep)
  {
    assert (pat + t)[..|pat|] == pat;
    assert (pat + t)[|pat|..] == t;
  }

  /** Text that holds no first character of the pattern passes through unchanged. */
  lemma {:induction false} ReplaceAllPrefixAbsent(a: string, t: string, pat: string, rep: string)
    requires |pat| > 0 && pat[0] !in a
    ensures ReplaceAll(a + t, pat, rep) == a + ReplaceAll(t, pat, rep)
    decreases |a|
  {
    if |a| > 0 {
      var s := a + t;
      assert s[0] == a[0] && a[0] in a;
      assert s[1..] == a[1..] + t;
      assert forall c :: c in a[1..] ==> c in a;
      ReplaceAllPrefixAbsent(a[1..], t, pat, rep);
      if |s| >= |pat| {
        assert s[..|pat|][0] == a[0];
      } else {
        ReplaceAllAbsentShort(t, pat, rep);
        ReplaceAllAbsentShort(a[1..] + t, pat, rep);
      }
      assert [a[0]] + (a[1..] + ReplaceAll(t, pat, rep)) == a + ReplaceAll(t, pat, rep);
    } else {
      assert a + t == t;
    }
  }

  /** A string shorter than the pattern is left alone. */
  lemma ReplaceAllAbsentShort(s: string, pat: string, rep: string)
    requires |pat| > 0 && |s| < |pat|
    ensures ReplaceAll(s, pat, rep) == s
  {
  }
}
