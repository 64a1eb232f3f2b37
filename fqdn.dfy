/**
 * FQDN templates: a comma-separated list of name templates in which
 * `{{.Name}}` stands for the resource's name. The list is split and trimmed
 * first, then each entry is rendered. Only that one action is modelled.
 */
module Fqdn {
  import opened Strings

  const NameAction: string := "{{.Name}}"

  /** Every template entry, rendered for the name, in order. */
  function RenderAll(entries: seq<string>, name: string): (names: seq<string>)
    ensures |names| == |entries|
    ensures forall i :: 0 <= i < |entries| ==> names[i] == ReplaceAll(entries[i], NameAction, name)
  {
    if |entries| == 0 then [] else [ReplaceAll(entries[0], NameAction, name)] + RenderAll(entries[1..], name)
  }

  /** The names a template gives a resource: one per non-blank entry of the list. */
  function ExecTemplate(template: string, name: string): (hostnames: seq<string>)
    ensures |hostnames| == |SplitList(template, ',')|
    ensures forall i :: 0 <= i < |hostnames| ==> hostnames[i] == ReplaceAll(SplitList(template, ',')[i], NameAction, name)
  {
    RenderAll(SplitList(template, ','), name)
  }

  /** Text that holds no action. */
  predicate IsPlainText(t: string)
  {
    '{' !in t
  }

  /** A template without actions names the same hosts for every resource. */
  lemma PlainTemplate(template: string, name: string)
    requires IsPlainText(template)
    ensures ExecTemplate(template, name) == SplitList(template, ',')
  {
    var entries := SplitList(template, ',');
    forall i | 0 <= i < |entries| ensures ExecTemplate(template, name)[i] == entries[i] {
      assert entries[i] in entries;
      PlainEntry(template, entries[i]);
      ReplaceAllAbsent(entries[i], NameAction, name);
    }
  }

  /** An entry of a template without actions holds no action either. */
  lemma PlainEntry(template: string, e: string)
    requires IsPlainText(template) && e in SplitList(template, ',')
    ensures IsPlainText(e)
  {
    var parts := Split(template, ',');
    TrimmedEntryOrigin(parts, e);
    var p :| p in parts && e == TrimSpace(p);
    TrimSpaceKeepsCharacters(p);
    JoinSplit(template, ',');
    forall c | c in p ensures c in template {
      JoinPartCharacters(parts, ',', p, c);
    }
  }

  /** `{{.Name}}<suffix>` renders to `<name><suffix>`. */
  lemma RenderName(suffix: string, name: string)
    requires IsPlainText(suffix)
    ensures ReplaceAll(NameAction + suffix, NameAction, name) == name + suffix
  {
    ReplaceAllLeading(NameAction, suffix, name);
    ReplaceAllAbsent(suffix, NameAction, name);
  }

  /** An entry that starts with the action and has no comma or white space at its end. */
  predicate IsNameEntry(suffix: string)
  {
    IsPlainText(suffix) && ',' !in suffix && (|suffix| > 0 ==> !IsSpace(suffix[|suffix| - 1]))
  }

  /** `{{.Name}}` followed by a name entry is itself a trimmed list entry. */
  lemma NameEntryIsTrimmed(suffix: string)
    requires IsNameEntry(suffix)
    ensures IsTrimmedEntry(NameAction + suffix, ',')
  {
    var e := NameAction + suffix;
    assert forall c :: c in e ==> c in NameAction || c in suffix;
    if |suffix| > 0 {
      assert e[|e| - 1] == suffix[|suffix| - 1];
    }
  }

  /** The template `{{.Name}}<suffix>` gives the one name `<name><suffix>`. */
  lemma SingleNameTemplate(template: string, name: string, suffix: string)
    requires template == NameAction + suffix && IsNameEntry(suffix)
    ensures ExecTemplate(template, name) == [name + suffix]
  {
    NameEntryIsTrimmed(suffix);
    SplitListOne(template);
    RenderName(suffix, name);
  }

  /** The template `{{.Name}}<first>, {{.Name}}<second>` gives `<name><first>` and `<name><second>`. */
  lemma TwoNameTemplate(template: string, name: string, first: string, second: string)
    requires template == NameAction + first + ", " + NameAction + second
    requires IsNameEntry(first) && IsNameEntry(second)
    ensures ExecTemplate(template, name) == [name + first, name + second]
  {
    NameEntryIsTrimmed(first);
    NameEntryIsTrimmed(second);
    assert template == (NameAction + first) + ", " + (NameAction + second);
    SplitListTwo(NameAction + first, NameAction + second);
    RenderName(first, name);
    RenderName(second, name);
  }
}
