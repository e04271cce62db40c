/** The records the hookify rule pipeline passes around: the metadata mapping the frontmatter
    parser produces, compiled conditions and rules, the hook payload, and the hook output. */
module HookifyTypes {
  import opened Wrappers
  import Text

  /** One entry of a metadata list: a scalar, or a flat mapping from an inline or multi-line item. */
  datatype Item = Scalar(text: string) | Dict(entries: map<string, string>)

  /** A metadata value: a scalar string, a coerced boolean, or a flat list. */
  datatype Value = Str(s: string) | Bool(b: bool) | List(items: seq<Item>)

  type Metadata = map<string, Value>

  /** JavaScript truthiness of a metadata value: the empty string and `false` are falsy, and every
      array, even an empty one, is truthy. */
  predicate Truthy(v: Value) {
    match v
    case Str(s) => s != ""
    case Bool(b) => b
    case List(_) => true
  }

  function ItemText(item: Item): string {
    match item
    case Scalar(t) => t
    case Dict(_) => "[object Object]"
  }

  function ItemTexts(items: seq<Item>): (r: seq<string>)
    ensures |r| == |items|
    ensures forall i :: 0 <= i < |items| ==> r[i] == ItemText(items[i])
  {
    seq(|items|, i requires 0 <= i < |items| => ItemText(items[i]))
  }

  /** JavaScript's `String(v)`: an array renders as its elements joined by commas, and an object
      as `[object Object]`. */
  function JsText(v: Value): string {
    match v
    case Str(s) => s
    case Bool(b) => if b then "true" else "false"
    case List(items) => Text.Join(ItemTexts(items), ",")
  }

  /** The six operators of the rule format, and any other text, which the compiler keeps. */
  datatype Operator =
    | RegexMatch
    | Contains
    | Equals
    | NotContains
    | StartsWith
    | EndsWith
    | Unrecognised(text: string)

  datatype Condition = Condition(field: string, operator: Operator, pattern: string)

  /** A compiled rule. The compiler copies `event`, `action`, `pattern` and `tool_matcher` from the
      metadata without checking their type, so they stay metadata values here. */
  datatype Rule = Rule(
    name: string,
    enabled: bool,
    event: Value,
    pattern: Option<Value>,
    conditions: seq<Condition>,
    action: Value,
    toolMatcher: Option<Value>,
    message: string)

  /** The string-valued entries of `tool_input`, and the `new_string` of each entry of its `edits`
      list (the empty string where an edit has none). */
  datatype ToolInput = ToolInput(fields: map<string, string>, edits: Option<seq<string>>)

  datatype HookInput = HookInput(
    hookEventName: Option<string>,
    toolName: Option<string>,
    toolInput: Option<ToolInput>,
    reason: Option<string>,
    transcriptPath: Option<string>,
    userPrompt: Option<string>)

  datatype Permission = Deny | Allow

  datatype HookSpecificOutput = HookSpecificOutput(hookEventName: string, permissionDecision: Permission)

  datatype Decision = Block

  /** The hook output document; `None` fields are absent from it. */
  datatype HookOutput = HookOutput(
    decision: Option<Decision>,
    reason: Option<string>,
    systemMessage: Option<string>,
    hookSpecificOutput: Option<HookSpecificOutput>)

  /** `x || ""` for an optional string. */
  function OrEmpty(x: Option<string>): string {
    x.GetOr("")
  }
}
