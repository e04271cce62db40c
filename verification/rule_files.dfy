/** Rule files end to end: a file written as a delimited region of entries and a message body
    loads to the rule the entries describe. */
module RuleFiles {
  import opened Wrappers
  import opened HookifyTypes
  import opened FrontmatterRoundTrip
  import ConfigLoader
  import Frontmatter
  import Text

  /** The text of a rule file: the region of `entries` between two delimiters, then the body. */
  function RuleText(entries: seq<Entry>, body: string): string {
    Delimited(Region(entries), body)
  }

  /** A region between two delimiters, then a body. */
  function Delimited(region: string, body: string): string {
    "---" + region + "---" + body
  }

  lemma {:induction false} ExpectedKeeps(m: Metadata, entries: seq<Entry>, k: string)
    requires k in m
    ensures k in Expected(m, entries)
    decreases |entries|
  {
    if |entries| > 0 {
      ExpectedKeeps(m[entries[0].key := EntryValue(entries[0])], entries[1..], k);
    }
  }

  /** The region of at least one well-formed entry parses to a non-empty mapping: the one the
      entries describe. */
  lemma RegionMetadata(entries: seq<Entry>)
    requires |entries| > 0 && forall i :: 0 <= i < |entries| ==> GoodEntry(entries[i])
    ensures Frontmatter.ParseMetadata(Region(entries)) == Expected(map[], entries) != map[]
  {
    ParseRegion(entries);
    var first := map[][entries[0].key := EntryValue(entries[0])];
    assert Expected(map[], entries) == Expected(first, entries[1..]);
    ExpectedKeeps(first, entries[1..], entries[0].key);
  }

  /** A delimited file whose region parses to a non-empty mapping loads to that mapping's rule. */
  lemma LoadRegion(region: string, body: string, fm: Metadata)
    requires !Text.Contains(region + "--", "---") && Frontmatter.ParseMetadata(region) == fm != map[]
    ensures ConfigLoader.LoadRuleFile(Some(Delimited(region, body))) == Some(ConfigLoader.RuleFromDict(fm, body))
  {
    ConfigLoader.LoadDelimited(region, body);
  }

  /** A file holding at least one entry, whose region holds no delimiter, loads to the rule of the
      mapping its entries describe and its body. */
  lemma LoadWrittenRule(entries: seq<Entry>, body: string)
    requires |entries| > 0 && forall i :: 0 <= i < |entries| ==> GoodEntry(entries[i])
    requires !Text.Contains(Region(entries) + "--", "---")
    ensures ConfigLoader.LoadRuleFile(Some(RuleText(entries, body))) ==
      Some(ConfigLoader.RuleFromDict(Expected(map[], entries), body))
  {
    RegionMetadata(entries);
    LoadRegion(Region(entries), body, Expected(map[], entries));
  }

  lemma CoerceBash()
    ensures Frontmatter.Coerce("bash") == Str("bash")
  {
    assert Text.StripQuotes("bash") == "bash";
    assert Text.ToLowerAscii("bash") == "bash";
  }

  function LegacyBashEntries(name: string, pattern: string): seq<Entry> {
    [ScalarEntry("name", name), ScalarEntry("event", "bash"), ScalarEntry("pattern", pattern)]
  }

  lemma LegacyBashMetadata(name: string, pattern: string)
    ensures Expected(map[], LegacyBashEntries(name, pattern)) ==
      map["name" := Frontmatter.Coerce(name), "event" := Str("bash"), "pattern" := Frontmatter.Coerce(pattern)]
  {
    CoerceBash();
    var entries := LegacyBashEntries(name, pattern);
    var m1 := map["name" := Frontmatter.Coerce(name)];
    var m2 := m1["event" := Str("bash")];
    var m3 := m2["pattern" := Frontmatter.Coerce(pattern)];
    assert Expected(map[], entries) == Expected(m1, entries[1..]);
    assert Expected(m1, entries[1..]) == Expected(m2, entries[2..]);
    assert Expected(m2, entries[2..]) == Expected(m3, entries[3..]);
    assert entries[3..] == [];
  }

  lemma LegacyBashCompile(nameValue: Value, patternValue: Value, body: string)
    ensures var r := ConfigLoader.RuleFromDict(map["name" := nameValue, "event" := Str("bash"), "pattern" := patternValue], body);
      && r.name == (if Truthy(nameValue) then JsText(nameValue) else "unnamed")
      && r.enabled
      && r.event == Str("bash")
      && r.action == Str("warn")
      && r.message == Text.Trim(body)
      && r.conditions == (if Truthy(patternValue) then [Condition("command", RegexMatch, JsText(patternValue))] else [])
  {
    var fm := map["name" := nameValue, "event" := Str("bash"), "pattern" := patternValue];
    assert fm.Keys == {"name", "event", "pattern"};
    assert "enabled" != "pattern" by { assert "enabled"[0] != "pattern"[0]; }
    assert "enabled" != "name" && "enabled" != "event" by { assert |"enabled"| == 7; }
    assert "action" !in fm by { assert |"action"| == 6; }
    assert "conditions" !in fm by { assert |"conditions"| == 10; }
    assert "enabled" !in fm;
    assert ConfigLoader.ExplicitConditions(fm) == [];
    assert ConfigLoader.LegacyField(Str("bash")) == "command";
  }

  lemma LegacyBashEntriesGood(name: string, pattern: string)
    requires GoodText(name) && GoodText(pattern)
    ensures forall i :: 0 <= i < |LegacyBashEntries(name, pattern)| ==> GoodEntry(LegacyBashEntries(name, pattern)[i])
  {
    var entries := LegacyBashEntries(name, pattern);
    assert GoodText("bash") by { assert Text.Trimmed("bash"); }
    assert GoodKey("name") by { assert Text.Trimmed("name"); }
    assert GoodKey("event") by { assert Text.Trimmed("event"); }
    assert GoodKey("pattern") by { assert Text.Trimmed("pattern"); }
    assert GoodEntry(entries[0]);
    assert GoodEntry(entries[1]);
    assert GoodEntry(entries[2]);
  }

  /** A legacy rule file loads to the rule of its three keys. */
  lemma LegacyBashLoads(name: string, pattern: string, body: string)
    requires GoodText(name) && GoodText(pattern)
    requires !Text.Contains(Region(LegacyBashEntries(name, pattern)) + "--", "---")
    ensures ConfigLoader.LoadRuleFile(Some(RuleText(LegacyBashEntries(name, pattern), body))) ==
      Some(ConfigLoader.RuleFromDict(
        map["name" := Frontmatter.Coerce(name), "event" := Str("bash"), "pattern" := Frontmatter.Coerce(pattern)], body))
  {
    LegacyBashEntriesGood(name, pattern);
    LoadWrittenRule(LegacyBashEntries(name, pattern), body);
    LegacyBashMetadata(name, pattern);
  }

  /** A legacy rule file for shell commands, with a name, the `bash` event and a pattern, loads to
      an enabled warning rule carrying that name (`unnamed` when it is falsy) whose single condition matches the pattern against the command; a
      pattern reading `false` leaves it with no condition. */
  lemma LegacyBashRule(name: string, pattern: string, body: string)
    requires GoodText(name) && GoodText(pattern)
    requires !Text.Contains(Region(LegacyBashEntries(name, pattern)) + "--", "---")
    ensures var r := ConfigLoader.LoadRuleFile(Some(RuleText(LegacyBashEntries(name, pattern), body)));
      && r.Some?
      && r.value.name == (if Truthy(Frontmatter.Coerce(name)) then JsText(Frontmatter.Coerce(name)) else "unnamed")
      && r.value.enabled
      && r.value.event == Str("bash")
      && r.value.action == Str("warn")
      && r.value.message == Text.Trim(body)
      && r.value.conditions ==
           (if Truthy(Frontmatter.Coerce(pattern)) then [Condition("command", RegexMatch, JsText(Frontmatter.Coerce(pattern)))] else [])
  {
    LegacyBashLoads(name, pattern, body);
    LegacyBashCompile(Frontmatter.Coerce(name), Frontmatter.Coerce(pattern), body);
  }
}
