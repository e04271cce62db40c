/** The rule engine (`matchesTool`, `extractField`, `checkCondition`, `ruleMatches`,
    `evaluateRules`). Two things the engine calls out to are parameters: `regex(pattern, text)`
    is the case-insensitive regular-expression test, `None` when the pattern does not compile, and
    `readFile(path)` is the transcript read, `None` when it fails. */
module RuleEngine {
  import opened Wrappers
  import opened HookifyTypes
  import Text

  /** `matchesTool`: `*` matches every tool; any other matcher is a `|`-separated list of tool
      names, matched exactly. */
  function MatchesTool(matcher: string, toolName: string): bool {
    matcher == "*" || toolName in Text.Split(matcher, "|")
  }

  /** A matcher written as a list of alternatives matches exactly the tools in the list. */
  lemma MatchesAlternatives(alternatives: seq<string>, toolName: string)
    requires |alternatives| >= 1
    requires forall k :: 0 <= k < |alternatives| ==> '|' !in alternatives[k]
    ensures MatchesTool(Text.Join(alternatives, "|"), toolName) <==>
      Text.Join(alternatives, "|") == "*" || toolName in alternatives
  {
    forall k | 0 <= k < |alternatives|
      ensures !Text.Contains(alternatives[k], ['|'])
    {
      Text.ContainsChar(alternatives[k], '|');
    }
    Text.JoinThenSplit(alternatives, '|');
  }

  /** A matcher without `|` that is not `*` matches only the tool it names. */
  lemma SingleToolMatcher(matcher: string, toolName: string)
    requires matcher != "*" && '|' !in matcher
    ensures MatchesTool(matcher, toolName) <==> toolName == matcher
  {
    Text.ContainsChar(matcher, '|');
    Text.SplitWhole(matcher, "|");
  }

  /** A `tool_matcher` the engine cannot split: truthy but not a string. */
  predicate Unsplittable(toolMatcher: Option<Value>) {
    toolMatcher.Some? && Truthy(toolMatcher.value) && !toolMatcher.value.Str?
  }

  /** The tool-matcher test of `ruleMatches`: an absent or falsy matcher lets every tool through,
      and a truthy matcher that is not a string makes `matcher.split` throw. */
  function ToolMatcherPasses(toolMatcher: Option<Value>, toolName: string): (r: Result<bool>)
    ensures r.Err? <==> Unsplittable(toolMatcher)
    ensures (toolMatcher.None? || !Truthy(toolMatcher.value)) ==> r == Ok(true)
    ensures toolMatcher.Some? && toolMatcher.value.Str? && toolMatcher.value.s != "" ==>
      r == Ok(MatchesTool(toolMatcher.value.s, toolName))
  {
    match toolMatcher
    case None => Ok(true)
    case Some(v) =>
      if !Truthy(v) then Ok(true)
      else if v.Str? then Ok(MatchesTool(v.s, toolName))
      else Err("TypeError: matcher.split is not a function")
  }

  /** `(toolInput[key] as string) || ""`. */
  function TextOf(ti: ToolInput, key: string): string {
    if key in ti.fields then ti.fields[key] else ""
  }

  /** `String(toolInput[key])` for a key the tool input has. The `edits` list holds objects, each
      of which prints as `[object Object]`. */
  predicate HasKey(ti: ToolInput, key: string) {
    key in ti.fields || (key == "edits" && ti.edits.Some?)
  }

  function DirectValue(ti: ToolInput, key: string): string
    requires HasKey(ti, key)
  {
    if key in ti.fields then ti.fields[key]
    else Text.Join(seq(|ti.edits.value|, _ => "[object Object]"), ",")
  }

  /** The fields the extractor knows for a tool, besides the tool input's own keys. */
  predicate Known(field: string, toolName: string, ti: ToolInput, input: HookInput) {
    || field in {"reason", "user_prompt"}
    || (field == "transcript" && input.transcriptPath.Some? && input.transcriptPath.value != "")
    || (toolName == "Bash" && field == "command")
    || (toolName in {"Write", "Edit"} && field in {"content", "new_text", "new_string", "old_text", "old_string", "file_path"})
    || (toolName == "MultiEdit" && (field == "file_path" || (field in {"new_text", "content"} && ti.edits.Some?)))
  }

  /** `extractField`, in the source's order of precedence. A key of the tool input comes first;
      the stop and prompt fields read the payload or the empty text, and a transcript without a
      path does not resolve; for Write and Edit, `content`, `new_text` and `new_string` all read
      `content`, or else `new_string`, or else the empty text. */
  function ExtractField(field: string, toolName: string, ti: ToolInput, input: HookInput, readFile: string -> Option<string>): (r: Option<string>)
    ensures r.Some? <==> HasKey(ti, field) || Known(field, toolName, ti, input)
    ensures HasKey(ti, field) ==> r == Some(DirectValue(ti, field))
    ensures !HasKey(ti, field) && field in {"reason", "user_prompt"} ==>
      r == Some(if field == "reason" then OrEmpty(input.reason) else OrEmpty(input.userPrompt))
    ensures !HasKey(ti, field) && field == "transcript" ==>
      r == (if OrEmpty(input.transcriptPath) == "" then None else Some(readFile(input.transcriptPath.value).GetOr("")))
    ensures !HasKey(ti, field) && toolName in {"Write", "Edit"} && field in {"content", "new_text", "new_string"} ==>
      r == Some(if "content" in ti.fields && ti.fields["content"] != "" then ti.fields["content"]
                else if "new_string" in ti.fields then ti.fields["new_string"] else "")
  {
    if HasKey(ti, field) then Some(DirectValue(ti, field))
    else if field == "reason" then Some(OrEmpty(input.reason))
    else if field == "transcript" && OrEmpty(input.transcriptPath) != "" then Some(readFile(input.transcriptPath.value).GetOr(""))
    else if field == "user_prompt" then Some(OrEmpty(input.userPrompt))
    else if toolName == "Bash" && field == "command" then Some(TextOf(ti, "command"))
    else if (toolName == "Write" || toolName == "Edit") && field in {"content", "new_text", "new_string"} then
      Some(if TextOf(ti, "content") != "" then TextOf(ti, "content") else TextOf(ti, "new_string"))
    else if (toolName == "Write" || toolName == "Edit") && field in {"old_text", "old_string"} then Some(TextOf(ti, "old_string"))
    else if (toolName == "Write" || toolName == "Edit") && field == "file_path" then Some(TextOf(ti, "file_path"))
    else if toolName == "MultiEdit" && field == "file_path" then Some(TextOf(ti, "file_path"))
    else if toolName == "MultiEdit" && field in {"new_text", "content"} && ti.edits.Some? then Some(Text.Join(ti.edits.value, " "))
    else None
  }

  /** For MultiEdit, `new_text` and `content` that the tool input does not have read the edits'
      new texts joined by single spaces, and each edit's text is part of it. */
  lemma MultiEditText(field: string, ti: ToolInput, input: HookInput, readFile: string -> Option<string>)
    requires field in {"new_text", "content"} && !HasKey(ti, field) && ti.edits.Some?
    ensures var r := ExtractField(field, "MultiEdit", ti, input, readFile);
      r == Some(Text.Join(ti.edits.value, " "))
      && forall i :: 0 <= i < |ti.edits.value| ==> Text.Contains(r.value, ti.edits.value[i])
  {
    Text.JoinContainsParts(ti.edits.value, " ");
  }

  /** The operator test of `checkCondition` on a resolved value. The literal operators compare
      exactly, character by character: `contains` holds iff the pattern occurs at some index and
      `not_contains` iff it occurs at none, `equals` iff the texts are equal, and
      `starts_with`/`ends_with` iff the pattern is a prefix/suffix. */
  function Compare(op: Operator, pattern: string, value: string, regex: (string, string) -> Option<bool>): (holds: bool)
    ensures op == Contains ==> (holds <==> exists j :: Text.OccursAt(value, pattern, j))
    ensures op == NotContains ==> (holds <==> !exists j :: Text.OccursAt(value, pattern, j))
    ensures op == Equals ==> (holds <==> value == pattern)
    ensures op == StartsWith ==> (holds <==> |pattern| <= |value| && value[..|pattern|] == pattern)
    ensures op == EndsWith ==> (holds <==> |pattern| <= |value| && value[|value| - |pattern|..] == pattern)
    ensures op.RegexMatch? ==> (holds <==> regex(pattern, value) == Some(true))
    ensures op.Unrecognised? ==> !holds
  {
    Text.ContainsIff(value, pattern);
    match op
    case RegexMatch => regex(pattern, value).GetOr(false)
    case Contains => Text.Contains(value, pattern)
    case Equals => value == pattern
    case NotContains => !Text.Contains(value, pattern)
    case StartsWith => Text.StartsWith(value, pattern)
    case EndsWith => Text.EndsWith(value, pattern)
    case Unrecognised(_) => false
  }

  /** `checkCondition`: a field that does not resolve fails every operator. */
  function CheckCondition(c: Condition, toolName: string, ti: ToolInput, input: HookInput,
                          regex: (string, string) -> Option<bool>, readFile: string -> Option<string>): (holds: bool)
    ensures ExtractField(c.field, toolName, ti, input, readFile).None? ==> !holds
    ensures c.operator.Unrecognised? ==> !holds
    ensures c.operator.RegexMatch? && regex(c.pattern, ExtractField(c.field, toolName, ti, input, readFile).GetOr("")).None? ==> !holds
  {
    match ExtractField(c.field, toolName, ti, input, readFile)
    case None => false
    case Some(value) => Compare(c.operator, c.pattern, value, regex)
  }

  /** On a field that resolves, `not_contains` holds exactly when `contains` does not; on one
      that does not, neither holds. */
  lemma NotContainsNegates(field: string, pattern: string, toolName: string, ti: ToolInput, input: HookInput,
                           regex: (string, string) -> Option<bool>, readFile: string -> Option<string>)
    ensures var yes := CheckCondition(Condition(field, Contains, pattern), toolName, ti, input, regex, readFile);
      var no := CheckCondition(Condition(field, NotContains, pattern), toolName, ti, input, regex, readFile);
      if ExtractField(field, toolName, ti, input, readFile).Some? then no == !yes else !no && !yes
  {
  }

  /** Every condition holds, checked in order. */
  function AllHold(cs: seq<Condition>, toolName: string, ti: ToolInput, input: HookInput,
                   regex: (string, string) -> Option<bool>, readFile: string -> Option<string>): (all: bool)
    ensures all <==> forall i :: 0 <= i < |cs| ==> CheckCondition(cs[i], toolName, ti, input, regex, readFile)
  {
    if |cs| == 0 then true
    else
      var rest := AllHold(cs[1..], toolName, ti, input, regex, readFile);
      assert forall i :: 1 <= i < |cs| ==> cs[i] == cs[1..][i - 1];
      CheckCondition(cs[0], toolName, ti, input, regex, readFile) && rest
  }

  function ToolNameOf(input: HookInput): string {
    OrEmpty(input.toolName)
  }

  function ToolInputOf(input: HookInput): ToolInput {
    input.toolInput.GetOr(ToolInput(map[], None))
  }

  /** `ruleMatches`: the tool matcher is tested first (and may throw), then a rule without
      conditions never matches, and otherwise every condition must hold. */
  function RuleMatches(rule: Rule, input: HookInput, regex: (string, string) -> Option<bool>, readFile: string -> Option<string>): (r: Result<bool>)
    ensures r.Err? <==> Unsplittable(rule.toolMatcher)
    ensures r == Ok(true) <==>
      && ToolMatcherPasses(rule.toolMatcher, ToolNameOf(input)) == Ok(true)
      && |rule.conditions| > 0
      && forall i :: 0 <= i < |rule.conditions| ==> CheckCondition(rule.conditions[i], ToolNameOf(input), ToolInputOf(input), input, regex, readFile)
  {
    match ToolMatcherPasses(rule.toolMatcher, ToolNameOf(input))
    case Err(e) => Err(e)
    case Ok(passes) =>
      if !passes then Ok(false)
      else if |rule.conditions| == 0 then Ok(false)
      else Ok(AllHold(rule.conditions, ToolNameOf(input), ToolInputOf(input), input, regex, readFile))
  }

  /** A rule blocks when its action is exactly the text `block`; any other action warns. */
  predicate Blocks(rule: Rule) {
    rule.action == Str("block")
  }

  predicate Matched(rule: Rule, input: HookInput, regex: (string, string) -> Option<bool>, readFile: string -> Option<string>) {
    RuleMatches(rule, input, regex, readFile) == Ok(true)
  }

  datatype Split = Split(blocking: seq<Rule>, warning: seq<Rule>)

  /** The elements of `xs` that `keep` accepts, in order, each as often as it occurs. */
  function Filter<T>(xs: seq<T>, keep: T -> bool): seq<T>
    decreases |xs|
  {
    if |xs| == 0 then []
    else (if keep(xs[0]) then [xs[0]] else []) + Filter(xs[1..], keep)
  }

  lemma {:induction false} FilterAppend<T>(a: seq<T>, b: seq<T>, keep: T -> bool)
    ensures Filter(a + b, keep) == Filter(a, keep) + Filter(b, keep)
    decreases |a|
  {
    if |a| == 0 {
      assert a + b == b;
    } else {
      assert (a + b)[0] == a[0];
      assert (a + b)[1..] == a[1..] + b;
      FilterAppend(a[1..], b, keep);
    }
  }

  /** The rules that match and whose blocking is `block`, in rule order, each as often as it
      occurs: the reference the matching loop's two groups are measured against. */
  function Chosen(rules: seq<Rule>, input: HookInput, regex: (string, string) -> Option<bool>, readFile: string -> Option<string>, block: bool): seq<Rule> {
    Filter(rules, Picks(input, regex, readFile, block))
  }

  function Picks(input: HookInput, regex: (string, string) -> Option<bool>, readFile: string -> Option<string>, block: bool): Rule -> bool {
    x => Matched(x, input, regex, readFile) && Blocks(x) == block
  }

  /** An element `keep` rejects, inserted anywhere, leaves the filtered list as it was. */
  lemma FilterInsert<T>(xs: seq<T>, w: T, i: nat, keep: T -> bool)
    requires i <= |xs| && !keep(w)
    ensures Filter(xs[..i] + [w] + xs[i..], keep) == Filter(xs, keep)
  {
    var before, after := xs[..i], xs[i..];
    var front := before + [w];
    assert before + after == xs;
    assert Filter([w], keep) == [] by {
      assert [w][1..] == [];
    }
    FilterAppend(before, [w], keep);
    assert Filter(front, keep) == Filter(before, keep);
    FilterAppend(front, after, keep);
    FilterAppend(before, after, keep);
  }

  /** The matching loop of `evaluateRules`: the matching rules, blocking and warning apart, each in
      rule order. The first rule with an unsplittable matcher aborts the evaluation. */
  function Partition(rules: seq<Rule>, input: HookInput, regex: (string, string) -> Option<bool>, readFile: string -> Option<string>): (r: Result<Split>)
    ensures r.Err? <==> exists i :: 0 <= i < |rules| && Unsplittable(rules[i].toolMatcher)
    ensures r.Ok? ==> |r.value.blocking| + |r.value.warning| <= |rules|
    ensures r.Ok? ==> forall x :: x in r.value.blocking <==> x in rules && Matched(x, input, regex, readFile) && Blocks(x)
    ensures r.Ok? ==> forall x :: x in r.value.warning <==> x in rules && Matched(x, input, regex, readFile) && !Blocks(x)
    ensures r.Ok? ==> r.value.blocking == Chosen(rules, input, regex, readFile, true)
    ensures r.Ok? ==> r.value.warning == Chosen(rules, input, regex, readFile, false)
  {
    if |rules| == 0 then Ok(Split([], []))
    else
      assert forall i :: 1 <= i < |rules| ==> rules[i] == rules[1..][i - 1];
      assert forall x :: x in rules <==> x == rules[0] || x in rules[1..];
      match RuleMatches(rules[0], input, regex, readFile)
      case Err(e) => Err(e)
      case Ok(m) =>
        match Partition(rules[1..], input, regex, readFile)
        case Err(e) => Err(e)
        case Ok(rest) =>
          if !m then Ok(rest)
          else if Blocks(rules[0]) then Ok(rest.(blocking := [rules[0]] + rest.blocking))
          else Ok(rest.(warning := [rules[0]] + rest.warning))
  }

  /** `**[name]**` on one line, then the rule's message. */
  function RenderRule(rule: Rule): string {
    "**[" + rule.name + "]**\n" + rule.message
  }

  function RenderAll(rules: seq<Rule>): (texts: seq<string>)
    ensures |texts| == |rules|
    ensures forall i :: 0 <= i < |rules| ==> texts[i] == RenderRule(rules[i])
  {
    seq(|rules|, i requires 0 <= i < |rules| => RenderRule(rules[i]))
  }

  /** The rendered rules, separated by a blank line. */
  function Combined(rules: seq<Rule>): (text: string)
    ensures forall i :: 0 <= i < |rules| ==> Text.Contains(text, RenderRule(rules[i]))
    ensures rules == [] ==> text == ""
    ensures |rules| == 1 ==> text == RenderRule(rules[0])
  {
    var texts := RenderAll(rules);
    Text.JoinContainsParts(texts, "\n\n");
    Text.Join(texts, "\n\n")
  }

  /** Two non-empty groups of rules combine to their own texts with one blank line between
      them: with the single-rule case, this fixes the text as the rendered rules in order, each
      separated from the next by a blank line and nothing else. */
  lemma CombinedAppend(a: seq<Rule>, b: seq<Rule>)
    requires |a| > 0 && |b| > 0
    ensures Combined(a + b) == Combined(a) + "\n\n" + Combined(b)
  {
    assert RenderAll(a + b) == RenderAll(a) + RenderAll(b);
    Text.JoinAppend(RenderAll(a), RenderAll(b), "\n\n");
  }

  /** The output for the rules that matched: blocking rules, if any, decide it, in the shape the
      event asks for; otherwise warnings give a system message; otherwise it is empty. */
  function Respond(split: Split, hookEvent: string): (out: HookOutput)
    ensures out.systemMessage.None? <==> split.blocking == [] && split.warning == []
    ensures out.decision.Some? <==> split.blocking != [] && hookEvent == "Stop"
    ensures out.hookSpecificOutput.Some? <==> split.blocking != [] && hookEvent in {"PreToolUse", "PostToolUse"}
    ensures out.hookSpecificOutput.Some? ==> out.hookSpecificOutput.value == HookSpecificOutput(hookEvent, Deny)
    ensures out.reason.Some? <==> out.decision.Some?
    ensures out.reason.Some? ==> out.reason == out.systemMessage
    ensures split.blocking != [] ==> out.systemMessage == Some(Combined(split.blocking))
    ensures split.blocking == [] && split.warning != [] ==> out == HookOutput(None, None, Some(Combined(split.warning)), None)
  {
    if split.blocking != [] then
      var message := Combined(split.blocking);
      if hookEvent == "Stop" then HookOutput(Some(Block), Some(message), Some(message), None)
      else if hookEvent == "PreToolUse" || hookEvent == "PostToolUse" then
        HookOutput(None, None, Some(message), Some(HookSpecificOutput(hookEvent, Deny)))
      else HookOutput(None, None, Some(message), None)
    else if split.warning != [] then HookOutput(None, None, Some(Combined(split.warning)), None)
    else HookOutput(None, None, None, None)
  }

  /** `evaluateRules`. It fails exactly when some rule's matcher cannot be split. */
  function EvaluateRules(rules: seq<Rule>, input: HookInput, regex: (string, string) -> Option<bool>, readFile: string -> Option<string>): (r: Result<HookOutput>)
    ensures r.Err? <==> exists i :: 0 <= i < |rules| && Unsplittable(rules[i].toolMatcher)
  {
    match Partition(rules, input, regex, readFile)
    case Err(e) => Err(e)
    case Ok(split) => Ok(Respond(split, OrEmpty(input.hookEventName)))
  }

  /** Every blocking rule that matched shows in the message, and a matched blocking rule means
      the output carries no warning text: inserting a matching warning rule changes nothing. */
  lemma BlockingMessage(rules: seq<Rule>, input: HookInput, regex: (string, string) -> Option<bool>, readFile: string -> Option<string>, x: Rule)
    requires EvaluateRules(rules, input, regex, readFile).Ok?
    requires x in rules && Matched(x, input, regex, readFile) && Blocks(x)
    ensures Text.Contains(EvaluateRules(rules, input, regex, readFile).value.systemMessage.value, RenderRule(x))
  {
    var split := Partition(rules, input, regex, readFile).value;
    var i :| 0 <= i < |split.blocking| && split.blocking[i] == x;
  }

  /** A non-blocking rule inserted anywhere leaves the blocking choice as it was. */
  lemma InsertedWarningChosen(rules: seq<Rule>, w: Rule, i: nat, input: HookInput, regex: (string, string) -> Option<bool>, readFile: string -> Option<string>)
    requires i <= |rules| && !Blocks(w)
    ensures Chosen(rules[..i] + [w] + rules[i..], input, regex, readFile, true) == Chosen(rules, input, regex, readFile, true)
  {
    FilterInsert(rules, w, i, Picks(input, regex, readFile, true));
  }

  /** Inserting a rule whose matcher splits leaves every matcher splittable. */
  lemma InsertedSplittable(rules: seq<Rule>, w: Rule, i: nat)
    requires i <= |rules| && !Unsplittable(w.toolMatcher)
    requires forall k :: 0 <= k < |rules| ==> !Unsplittable(rules[k].toolMatcher)
    ensures forall j :: 0 <= j < |rules[..i] + [w] + rules[i..]| ==> !Unsplittable((rules[..i] + [w] + rules[i..])[j].toolMatcher)
  {
    var grown := rules[..i] + [w] + rules[i..];
    forall j | 0 <= j < |grown| ensures !Unsplittable(grown[j].toolMatcher) {
      if j < i {
        assert grown[j] == rules[j];
      } else if j > i {
        assert grown[j] == rules[j - 1];
      }
    }
  }

  /** With a blocking rule, the output does not depend on the warning group. */
  lemma RespondIgnoresWarnings(split: Split, hookEvent: string)
    requires split.blocking != []
    ensures Respond(split, hookEvent) == Respond(Split(split.blocking, []), hookEvent)
  {
  }

  /** Once some rule blocks, inserting a matching warning rule anywhere leaves the output as it
      was: warnings are suppressed. */
  lemma WarningsSuppressed(rules: seq<Rule>, w: Rule, i: nat, input: HookInput, regex: (string, string) -> Option<bool>, readFile: string -> Option<string>)
    requires i <= |rules|
    requires Partition(rules, input, regex, readFile).Ok? && Partition(rules, input, regex, readFile).value.blocking != []
    requires Matched(w, input, regex, readFile) && !Blocks(w)
    ensures EvaluateRules(rules[..i] + [w] + rules[i..], input, regex, readFile) == EvaluateRules(rules, input, regex, readFile)
  {
    var grown := rules[..i] + [w] + rules[i..];
    InsertedWarningChosen(rules, w, i, input, regex, readFile);
    InsertedSplittable(rules, w, i);
    var a := Partition(grown, input, regex, readFile);
    var b := Partition(rules, input, regex, readFile);
    assert a.Ok?;
    assert a.value.blocking == b.value.blocking;
    var e := OrEmpty(input.hookEventName);
    RespondIgnoresWarnings(a.value, e);
    RespondIgnoresWarnings(b.value, e);
  }
}
