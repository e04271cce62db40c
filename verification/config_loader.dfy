/** The rule compiler and loader (`ruleFromDict`, `loadRuleFile`, `loadRules`): metadata becomes a
    rule by defaults and the legacy `pattern` fallback, and the rule files of the project and plugin
    directories are kept or dropped by their enabled flag and event scope. File reads and directory
    listings are inputs: `None` stands for a file or directory that cannot be read. */
module ConfigLoader {
  import opened Wrappers
  import opened HookifyTypes
  import Frontmatter
  import FrontmatterProps
  import Text

  /** The operator names of the rule format. */
  const OperatorNames: seq<string> := ["regex_match", "contains", "equals", "not_contains", "starts_with", "ends_with"]

  /** The text a condition's `operator` holds for each operator. */
  function OperatorName(op: Operator): string {
    match op
    case RegexMatch => "regex_match"
    case Contains => "contains"
    case Equals => "equals"
    case NotContains => "not_contains"
    case StartsWith => "starts_with"
    case EndsWith => "ends_with"
    case Unrecognised(t) => t
  }

  /** The operator an `operator` text names. The compiler casts the text without checking it, so
      any other text is kept as it is. */
  function OperatorFromText(t: string): (op: Operator)
    ensures OperatorName(op) == t
    ensures op.Unrecognised? <==> t !in OperatorNames
  {
    if t == "regex_match" then RegexMatch
    else if t == "contains" then Contains
    else if t == "equals" then Equals
    else if t == "not_contains" then NotContains
    else if t == "starts_with" then StartsWith
    else if t == "ends_with" then EndsWith
    else Unrecognised(t)
  }

  /** Reading back an operator's name gives the operator, unless it is unrecognised text that
      spells one of the six names. */
  lemma OperatorRoundTrip(op: Operator)
    requires op.Unrecognised? ==> op.text !in OperatorNames
    ensures OperatorFromText(OperatorName(op)) == op
  {
  }

  /** A condition written as a dict: `field` and `pattern` default to the empty string and
      `operator` to `regex_match` when absent or empty. */
  function ConditionFromDict(d: map<string, string>): (c: Condition)
    ensures c.field == (if "field" in d then d["field"] else "")
    ensures c.pattern == (if "pattern" in d then d["pattern"] else "")
    ensures "operator" in d && d["operator"] != "" ==> OperatorName(c.operator) == d["operator"]
    ensures !("operator" in d && d["operator"] != "") ==> c.operator == RegexMatch
  {
    Condition(
      if "field" in d && d["field"] != "" then d["field"] else "",
      OperatorFromText(if "operator" in d && d["operator"] != "" then d["operator"] else "regex_match"),
      if "pattern" in d && d["pattern"] != "" then d["pattern"] else "")
  }

  /** The conditions of a `conditions` list: one per dict entry, in order; scalar entries are
      skipped. */
  function DictConditions(items: seq<Item>): (cs: seq<Condition>)
    ensures |cs| <= |items|
    ensures |cs| == 0 <==> forall i :: 0 <= i < |items| ==> items[i].Scalar?
    ensures forall c :: c in cs ==> exists i :: 0 <= i < |items| && items[i].Dict? && c == ConditionFromDict(items[i].entries)
    ensures forall i :: 0 <= i < |items| && items[i].Dict? ==> ConditionFromDict(items[i].entries) in cs
  {
    if |items| == 0 then []
    else
      var rest := DictConditions(items[1..]);
      assert forall i :: 1 <= i < |items| ==> items[i] == items[1..][i - 1];
      match items[0]
      case Scalar(_) => rest
      case Dict(d) => [ConditionFromDict(d)] + rest
  }

  /** The conditions the `conditions` entry yields: none unless it is a list. */
  function ExplicitConditions(fm: Metadata): seq<Condition> {
    if "conditions" in fm && fm["conditions"].List? then DictConditions(fm["conditions"].items) else []
  }

  /** `frontmatter[key] || fallback`. */
  function ValueOr(fm: Metadata, key: string, fallback: Value): (v: Value)
    ensures key in fm && Truthy(fm[key]) ==> v == fm[key]
    ensures !(key in fm && Truthy(fm[key])) ==> v == fallback
  {
    if key in fm && Truthy(fm[key]) then fm[key] else fallback
  }

  /** The field a legacy pattern is matched against, by the rule's event. */
  function LegacyField(event: Value): string {
    if event == Str("bash") then "command"
    else if event == Str("file") then "new_text"
    else "content"
  }

  /** The legacy `pattern` entry applies when it is truthy and the `conditions` entry yielded no
      condition. */
  predicate UsesLegacyPattern(fm: Metadata) {
    "pattern" in fm && Truthy(fm["pattern"]) && |ExplicitConditions(fm)| == 0
  }

  /** `ruleFromDict`. The legacy pattern's text is `String(pattern)`, which is what the regular
      expression constructor makes of it. */
  function RuleFromDict(fm: Metadata, message: string): (r: Rule)
    ensures r.name == (if "name" in fm && Truthy(fm["name"]) then JsText(fm["name"]) else "unnamed")
    ensures r.enabled <==> !("enabled" in fm && fm["enabled"] == Bool(false))
    ensures Truthy(r.event) && ("event" in fm && Truthy(fm["event"]) ==> r.event == fm["event"])
    ensures !("event" in fm && Truthy(fm["event"])) ==> r.event == Str("all")
    ensures Truthy(r.action) && ("action" in fm && Truthy(fm["action"]) ==> r.action == fm["action"])
    ensures !("action" in fm && Truthy(fm["action"])) ==> r.action == Str("warn")
    ensures r.pattern == (if "pattern" in fm then Some(fm["pattern"]) else None)
    ensures r.toolMatcher == (if "tool_matcher" in fm then Some(fm["tool_matcher"]) else None)
    ensures r.message == Text.Trim(message)
    ensures UsesLegacyPattern(fm) ==> r.conditions == [Condition(LegacyField(r.event), RegexMatch, JsText(fm["pattern"]))]
    ensures !UsesLegacyPattern(fm) ==> r.conditions == ExplicitConditions(fm)
  {
    var explicit := ExplicitConditions(fm);
    var event := ValueOr(fm, "event", Str("all"));
    var conditions :=
      if "pattern" in fm && Truthy(fm["pattern"]) && |explicit| == 0
      then [Condition(LegacyField(event), RegexMatch, JsText(fm["pattern"]))]
      else explicit;
    Rule(
      name := JsText(ValueOr(fm, "name", Str("unnamed"))),
      enabled := !("enabled" in fm && fm["enabled"] == Bool(false)),
      event := event,
      pattern := if "pattern" in fm then Some(fm["pattern"]) else None,
      conditions := conditions,
      action := ValueOr(fm, "action", Str("warn")),
      toolMatcher := if "tool_matcher" in fm then Some(fm["tool_matcher"]) else None,
      message := Text.Trim(message))
  }

  /** A rule has no condition exactly when its `conditions` entry holds no dict and it has no
      truthy legacy pattern. */
  lemma NoConditions(fm: Metadata, message: string)
    ensures |RuleFromDict(fm, message).conditions| == 0 <==>
      (!("conditions" in fm && fm["conditions"].List?) || forall i :: 0 <= i < |fm["conditions"].items| ==> fm["conditions"].items[i].Scalar?)
      && !("pattern" in fm && Truthy(fm["pattern"]))
  {
  }

  /** `loadRuleFile`: an unreadable file or one with no metadata yields no rule. */
  function LoadRuleFile(content: Option<string>): (r: Option<Rule>)
    ensures r.Some? <==> content.Some? && Frontmatter.ExtractFrontmatter(content.value).frontmatter != map[]
    ensures content.Some? && !Text.StartsWith(content.value, "---") ==> r.None?
  {
    match content
    case None => None
    case Some(text) =>
      var extracted := Frontmatter.ExtractFrontmatter(text);
      if extracted.frontmatter == map[] then None
      else Some(RuleFromDict(extracted.frontmatter, extracted.message))
  }

  /** One entry of a directory listing: the file name and the file's text, if it can be read. */
  datatype RuleFile = RuleFile(name: string, content: Option<string>)

  /** The files of the project's `.claude` directory that hold rules. */
  predicate ProjectRuleName(name: string) {
    Text.StartsWith(name, "hookify.") && Text.EndsWith(name, ".local.md")
  }

  /** The files of the plugin's `rules` directory that hold rules. */
  predicate PluginRuleName(name: string) {
    Text.EndsWith(name, ".local.md")
  }

  predicate RuleName(name: string, project: bool) {
    if project then ProjectRuleName(name) else PluginRuleName(name)
  }

  /** A loaded rule is kept when it is enabled and no event was asked for, or it applies to all
      events, or to the one asked for. */
  predicate InScope(rule: Rule, event: Option<string>) {
    rule.enabled && (event.None? || event.value == "" || rule.event == Str("all") || rule.event == Str(event.value))
  }

  /** What a listed file yields before the scope test: its rule, if its name marks it as a rule
      file of the directory and it loads. */
  function Candidate(file: RuleFile, project: bool): Option<Rule> {
    if RuleName(file.name, project) then LoadRuleFile(file.content) else None
  }

  function Candidates(files: seq<RuleFile>, project: bool): (cs: seq<Option<Rule>>)
    ensures |cs| == |files|
    ensures forall i :: 0 <= i < |files| ==> cs[i] == Candidate(files[i], project)
  {
    seq(|files|, i requires 0 <= i < |files| => Candidate(files[i], project))
  }

  /** The in-scope rules of a run of candidates, in order. */
  function KeepInScope(cs: seq<Option<Rule>>, event: Option<string>): (rules: seq<Rule>)
    ensures |rules| <= |cs|
    ensures forall r :: r in rules <==> Some(r) in cs && InScope(r, event)
  {
    if |cs| == 0 then []
    else
      var rest := KeepInScope(cs[1..], event);
      assert forall x :: x in cs <==> x == cs[0] || x in cs[1..];
      if cs[0].Some? && InScope(cs[0].value, event) then [cs[0].value] + rest else rest
  }

  lemma {:induction false} KeepAppend(a: seq<Option<Rule>>, b: seq<Option<Rule>>, event: Option<string>)
    ensures KeepInScope(a + b, event) == KeepInScope(a, event) + KeepInScope(b, event)
    decreases |a|
  {
    if |a| == 0 {
      assert a + b == b;
    } else {
      assert (a + b)[0] == a[0];
      assert (a + b)[1..] == a[1..] + b;
      KeepAppend(a[1..], b, event);
    }
  }

  /** The rules of one directory, in listing order: a rule is among them exactly when some listed
      rule file loads to it and it is in scope. */
  function LoadDir(files: seq<RuleFile>, project: bool, event: Option<string>): (rules: seq<Rule>)
    ensures |rules| <= |files|
    ensures forall r :: r in rules <==> (exists i :: 0 <= i < |files| && Candidate(files[i], project) == Some(r)) && InScope(r, event)
  {
    var cs := Candidates(files, project);
    assert forall r :: Some(r) in cs <==> exists i :: 0 <= i < |files| && Candidate(files[i], project) == Some(r);
    KeepInScope(cs, event)
  }

  /** Loading keeps the listing's order: the rules of two runs of files are those of the first run
      followed by those of the second. */
  lemma LoadDirAppend(a: seq<RuleFile>, b: seq<RuleFile>, project: bool, event: Option<string>)
    ensures LoadDir(a + b, project, event) == LoadDir(a, project, event) + LoadDir(b, project, event)
  {
    CandidatesAppend(a, b, project);
    KeepAppend(Candidates(a, project), Candidates(b, project), event);
  }

  lemma CandidatesAppend(a: seq<RuleFile>, b: seq<RuleFile>, project: bool)
    ensures Candidates(a + b, project) == Candidates(a, project) + Candidates(b, project)
  {
    var whole := Candidates(a + b, project);
    var parts := Candidates(a, project) + Candidates(b, project);
    forall i | 0 <= i < |whole|
      ensures whole[i] == parts[i]
    {
      if i < |a| {
        assert (a + b)[i] == a[i];
      } else {
        assert (a + b)[i] == b[i - |a|];
      }
    }
  }

  /** Some rule file of a readable directory loads to `r`. */
  predicate LoadsFrom(r: Rule, files: Option<seq<RuleFile>>, project: bool) {
    files.Some? && exists i :: 0 <= i < |files.value| && Candidate(files.value[i], project) == Some(r)
  }

  /** `loadRules`: the project directory's rules, then the plugin directory's, which is only
      consulted when the plugin root is set and non-empty. */
  function LoadRules(event: Option<string>, projectFiles: Option<seq<RuleFile>>, pluginRoot: Option<string>, pluginFiles: Option<seq<RuleFile>>): (rules: seq<Rule>)
    ensures forall r :: r in rules ==> InScope(r, event)
    ensures projectFiles.Some? ==> LoadDir(projectFiles.value, true, event) <= rules
    ensures (pluginRoot.None? || pluginRoot == Some("") || pluginFiles.None?) ==>
      rules == (if projectFiles.Some? then LoadDir(projectFiles.value, true, event) else [])
    ensures pluginRoot.Some? && pluginRoot.value != "" && pluginFiles.Some? ==>
      rules == (if projectFiles.Some? then LoadDir(projectFiles.value, true, event) else []) + LoadDir(pluginFiles.value, false, event)
    ensures forall r :: r in rules <==> (InScope(r, event) && (LoadsFrom(r, projectFiles, true) || (pluginRoot.Some? && pluginRoot.value != "" && LoadsFrom(r, pluginFiles, false))))
  {
    var project := if projectFiles.Some? then LoadDir(projectFiles.value, true, event) else [];
    var plugin :=
      if pluginRoot.Some? && pluginRoot.value != "" && pluginFiles.Some? then LoadDir(pluginFiles.value, false, event) else [];
    project + plugin
  }

  /** A file of a delimited document, `---<region>---<body>`, yields the rule of its region's
      metadata and its body, unless the region holds no metadata. */
  lemma LoadDelimited(region: string, body: string)
    requires !Text.Contains(region + "--", "---")
    ensures var fm := Frontmatter.ParseMetadata(region);
      LoadRuleFile(Some("---" + region + "---" + body)) == if fm == map[] then None else Some(RuleFromDict(fm, body))
  {
    FrontmatterProps.DelimitedDocument(region, body);
    RuleOfTrimmedMessage(Frontmatter.ParseMetadata(region), body);
  }

  lemma RuleOfTrimmedMessage(fm: Metadata, message: string)
    ensures RuleFromDict(fm, Text.Trim(message)) == RuleFromDict(fm, message)
  {
    Text.TrimOfTrimmed(Text.Trim(message));
  }
}
