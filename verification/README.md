# hookify rules and html-checker analyzers, in Dafny

This project models two parts of the serum plugins repository.

**The hookify rule pipeline** turns Markdown rule files into rules and evaluates them against
hook events. A rule file is `---`, a small YAML-like metadata region, `---`, then a message body.

- `extractFrontmatter` scans the metadata region line by line. Here it is a left fold over the
  lines (`Frontmatter.Scan`), with a state record holding the scanner's current key, list and
  dict, its two flags, and the mapping built so far.
- `ruleFromDict` compiles the mapping into a rule, with defaults and the legacy `pattern`
  fallback.
- `loadRuleFile` and `loadRules` load the rule files of the project's `.claude` directory and
  the plugin's `rules` directory, keeping enabled rules in scope for the event.
- `matchesTool`, `extractField`, `checkCondition` and `ruleMatches` decide whether a rule
  matches a hook payload.
- `evaluateRules` dispatches the matching rules: any blocking rule suppresses every warning.

**The html-checker analyzers** are pure functions from records the page parser produced to
issue lists, counters and scores:

- `analyzeHeadings`, `analyzeLinks`, `analyzeImages`, `analyzeMeta` and `analyzeForms`;
- the accessibility audit `analyzeA11y`;
- the performance audit `analyzePerformance`.

The records are inputs. Each issue is modelled as its severity, its type and what it is about;
message and details text is not modelled.

Modules follow the source files:

- `Wrappers`: `Option` and `Result`.
- `Text`: the JavaScript string built-ins the code uses (`trim`, `split`, `join`, `includes`,
  `startsWith`, `indexOf`, ASCII `toLowerCase`).
- `HookifyTypes`, `Frontmatter`, `FrontmatterProps`, `FrontmatterRoundTrip`, `ConfigLoader`,
  `RuleFiles`, `RuleEngine`: the hookify pipeline.
- `HtmlTypes`, `Headings`, `Links`, `Images`, `Meta`, `Forms`, `A11y`, `Performance`: the
  html-checker.

Several things the source reaches outside for are parameters of the model:

- the regular-expression test is `regex(pattern, text)`, which returns `None` for a pattern
  that does not compile;
- the transcript read is `readFile(path)`;
- a directory listing is a sequence of (file name, optional content) pairs;
- the plugin root environment variable is an optional string.

## Model

| member | source | states |
|---|---|---|
| Frontmatter.Coerce | plugins/hookify/core/config-loader.ts:65-72 | a scalar becomes a boolean exactly when its quote-stripped text is `true` or `false` in any letter case, with the right truth value; otherwise it is the quote-stripped text |
| Frontmatter.ExtractFrontmatter | plugins/hookify/core/config-loader.ts:13-21 | content not starting with `---` has empty metadata and is all message; the message is either the whole content or trimmed |
| FrontmatterProps.OneDelimiterOnly | plugins/hookify/core/config-loader.ts:18-21 | content starting with `---` with no second delimiter has empty metadata and is all message |
| FrontmatterProps.ExtractOnParts | plugins/hookify/core/config-loader.ts:18-24 | when the content splits on `---` into an empty head, a region and a tail, the metadata is parsed from the region alone and the message is the tail rejoined with `---` and trimmed |
| FrontmatterProps.DelimitedDocument | plugins/hookify/core/config-loader.ts:18-24 | a document `---region---body` whose region holds no delimiter gets the region's metadata and the trimmed body as message, even when the body holds more delimiters |
| FrontmatterProps.StepKeepsInv | plugins/hookify/core/config-loader.ts:36-110 | each line keeps the scanner invariant: a dict is open only inside a list, and exactly when it holds a key |
| FrontmatterProps.ScanKeepsInv | plugins/hookify/core/config-loader.ts:36-110 | the whole scanning loop keeps that invariant |
| FrontmatterProps.SkippedLine | plugins/hookify/core/config-loader.ts:37-38 | blank lines and comment lines leave the state unchanged |
| FrontmatterProps.TopLevelLine | plugins/hookify/core/config-loader.ts:43-73 | a zero-indent `key: value` line stores the coerced value under the trimmed key, or opens an empty list when the value is empty; a list open under another non-empty key is stored first, and no other key changes |
| FrontmatterProps.ListItemLine | plugins/hookify/core/config-loader.ts:76-104 | inside a list, an item with `:` and `,` is an inline dict, one with only `:` opens a multi-line dict, anything else is a quote-stripped scalar; a pending dict is pushed first |
| FrontmatterProps.DashLineOutsideList | plugins/hookify/core/config-loader.ts:76-76 | a dash line outside a list changes nothing |
| FrontmatterProps.OtherLine | plugins/hookify/core/config-loader.ts:105-109 | any other line only extends the open dict, and only when it is indented more than two columns and holds a colon |
| FrontmatterRoundTrip.ScalarLineStep | plugins/hookify/core/config-loader.ts:56-73 | a `key: value` line binds the key to the coerced value in the final mapping |
| FrontmatterRoundTrip.HeaderLineStep | plugins/hookify/core/config-loader.ts:60-63 | a `key:` line with an empty value opens a list, and a key with no items ends up bound to the empty list |
| FrontmatterRoundTrip.OneLineItemStep | plugins/hookify/core/config-loader.ts:84-93 | an item line `- k1: v1, k2: v2` appends one dict holding every pair, later keys overriding earlier ones, with quotes stripped from the values |
| FrontmatterRoundTrip.InlineDictOfPairs | plugins/hookify/core/config-loader.ts:86-91 | reading the comma-separated parts of a one-line dict builds the mapping of its pairs, left to right |
| FrontmatterRoundTrip.MultiLineHeadStep | plugins/hookify/core/config-loader.ts:94-99 | an item line `- k: v` with no comma opens a dict holding that one pair, after pushing any dict still open |
| FrontmatterRoundTrip.ContLineStep | plugins/hookify/core/config-loader.ts:105-109 | a continuation line indented four columns adds its pair to the open dict and changes nothing else |
| FrontmatterRoundTrip.ContScan | plugins/hookify/core/config-loader.ts:105-109 | a run of continuation lines adds its pairs to the open dict, in order |
| FrontmatterRoundTrip.ItemSpecScan | plugins/hookify/core/config-loader.ts:76-109 | an item written as a scalar, a one-line dict or a multi-line dict adds exactly its value to the pending list |
| FrontmatterRoundTrip.ItemsScan | plugins/hookify/core/config-loader.ts:76-109 | a run of item lines, of any of the three kinds, adds their values to the pending list, in order |
| FrontmatterRoundTrip.EntryScan | plugins/hookify/core/config-loader.ts:43-118 | one scalar or list entry binds its key to its value in the final mapping, including the final-list save |
| FrontmatterRoundTrip.ParseRegion | plugins/hookify/core/config-loader.ts:26-118 | round trip: a region written from well-formed entries (scalars, and lists of scalars and of dicts in either layout) parses back to the mapping the entries describe |
| ConfigLoader.OperatorFromText | plugins/hookify/core/config-loader.ts:135-135 | the operator keeps the text it was read from, and is unrecognised exactly when the text is none of the six names |
| ConfigLoader.OperatorRoundTrip | plugins/hookify/core/config-loader.ts:135-135 | reading back an operator's name gives the operator |
| ConfigLoader.ConditionFromDict | plugins/hookify/core/config-loader.ts:132-137 | `field` and `pattern` default to the empty text; `operator` defaults to `regex_match` only when it is absent or empty |
| ConfigLoader.DictConditions | plugins/hookify/core/config-loader.ts:130-140 | one condition per dict entry of the list and none for scalar entries: no condition exactly when every entry is a scalar |
| ConfigLoader.ValueOr | plugins/hookify/core/config-loader.ts:158-163 | `frontmatter[key] || fallback`: the value when it is truthy, the fallback otherwise |
| ConfigLoader.RuleFromDict | plugins/hookify/core/config-loader.ts:126-167 | the defaults (`unnamed`, enabled unless exactly `false`, event `all`, action `warn`), the trimmed message, and one legacy `regex_match` condition on `command`/`new_text`/`content` exactly when `pattern` is truthy and the list gave no condition |
| ConfigLoader.NoConditions | plugins/hookify/core/config-loader.ts:129-155 | a rule has no condition exactly when its `conditions` entry holds no dict and it has no truthy `pattern` |
| ConfigLoader.RuleOfTrimmedMessage | plugins/hookify/core/config-loader.ts:165-165 | trimming the message first changes nothing |
| ConfigLoader.LoadRuleFile | plugins/hookify/core/config-loader.ts:172-187 | a rule is loaded exactly when the file is readable and its metadata is non-empty; text not starting with `---` yields none |
| ConfigLoader.LoadDelimited | plugins/hookify/core/config-loader.ts:172-187 | a delimited file yields the rule of its region's metadata and its body, or nothing when the metadata is empty |
| ConfigLoader.Candidates | plugins/hookify/core/config-loader.ts:200-202 | each listed file yields its rule exactly when its name marks it as a rule file of that directory |
| ConfigLoader.KeepInScope | plugins/hookify/core/config-loader.ts:203-206 | a rule is kept exactly when it is enabled and no event was asked for, or its event is `all` or the one asked for |
| ConfigLoader.LoadDir | plugins/hookify/core/config-loader.ts:199-209 | a directory's rules are exactly the in-scope rules its rule files load to |
| ConfigLoader.LoadDirAppend | plugins/hookify/core/config-loader.ts:200-208 | loading keeps the listing order |
| ConfigLoader.LoadRules | plugins/hookify/core/config-loader.ts:192-239 | every loaded rule is in scope; the project rules come first and the plugin rules follow them, loaded from a readable plugin directory under a set plugin root; without a plugin root or a readable plugin directory only the project rules are loaded; a rule is loaded exactly when it is in scope and some rule file of either directory loads to it |
| RuleFiles.LoadWrittenRule | plugins/hookify/core/config-loader.ts:172-187 | a rule file written from well-formed entries, including a `conditions` list of dicts in either layout, loads to the rule compiled from the mapping those entries describe |
| RuleFiles.LegacyBashCompile | plugins/hookify/core/config-loader.ts:143-166 | a legacy `bash` rule is an enabled warning rule whose only condition matches its pattern against `command` |
| RuleFiles.LegacyBashRule | plugins/hookify/core/config-loader.ts:143-166 | a legacy `bash` rule file, end to end, loads to that rule, named by its `name` or `unnamed` when that is falsy |
| RuleEngine.MatchesAlternatives | plugins/hookify/core/rule-engine.ts:23-27 | a matcher written as `|`-separated alternatives matches exactly the tools among them, or every tool for `*` |
| RuleEngine.SingleToolMatcher | plugins/hookify/core/rule-engine.ts:23-27 | a matcher without `|` that is not `*` matches only the tool it names |
| RuleEngine.ToolMatcherPasses | plugins/hookify/core/rule-engine.ts:137-139 | an absent or falsy matcher lets every tool through; a truthy matcher that is not a string throws |
| RuleEngine.ExtractField | plugins/hookify/core/rule-engine.ts:32-89 | a field resolves exactly when it is a key of the tool input or one the extractor knows; a direct key wins; `reason`/`user_prompt` fall back to the empty text; a `transcript` without a path does not resolve; Write/Edit read `content`, else `new_string`, else the empty text |
| RuleEngine.MultiEditText | plugins/hookify/core/rule-engine.ts:76-85 | for MultiEdit, `new_text` and `content` read the edits' new texts joined by one space, and each edit's text is part of the result |
| RuleEngine.Compare | plugins/hookify/core/rule-engine.ts:105-126 | the literal operators compare exactly (substring at some index, equality, prefix, suffix); `not_contains` is the negation of `contains`; `regex_match` asks the regex test; an unrecognised operator is false |
| RuleEngine.CheckCondition | plugins/hookify/core/rule-engine.ts:94-127 | an unresolved field, an unrecognised operator and a pattern that does not compile all make the condition false |
| RuleEngine.NotContainsNegates | plugins/hookify/core/rule-engine.ts:114-119 | on a resolved field `not_contains` is exactly the negation of `contains`; on an unresolved one both are false |
| RuleEngine.AllHold | plugins/hookify/core/rule-engine.ts:147-151 | the condition loop succeeds exactly when every condition holds |
| RuleEngine.RuleMatches | plugins/hookify/core/rule-engine.ts:132-154 | a rule matches exactly when its tool matcher passes, it has a condition, and every condition holds; it throws exactly when its matcher cannot be split |
| RuleEngine.Partition | plugins/hookify/core/rule-engine.ts:164-172 | the blocking rules are exactly the matching rules whose action is exactly `block`, the warning rules the other matching ones, each list in the rules' order and with their repetitions |
| RuleEngine.FilterInsert | plugins/hookify/core/rule-engine.ts:164-172 | inserting, anywhere, an element the filter drops leaves the filtered list unchanged |
| RuleEngine.RenderAll | plugins/hookify/core/rule-engine.ts:176-176 | each rule renders as `**[name]**`, a line break, then its message |
| RuleEngine.Combined | plugins/hookify/core/rule-engine.ts:176-177 | the joined text holds every rendered rule; it is empty for no rule and the rendered rule itself for one |
| RuleEngine.CombinedAppend | plugins/hookify/core/rule-engine.ts:176-177 | the text of two non-empty runs of rules is the text of each, joined by one blank line (`\n\n`) |
| RuleEngine.Respond | plugins/hookify/core/rule-engine.ts:174-205 | the four output shapes: `Stop` with a decision and reason, `PreToolUse`/`PostToolUse` with a deny, any other event with a message only, warnings only with a message, and an empty output when nothing matched |
| RuleEngine.EvaluateRules | plugins/hookify/core/rule-engine.ts:159-206 | evaluation fails exactly when some rule's matcher cannot be split |
| RuleEngine.BlockingMessage | plugins/hookify/core/rule-engine.ts:175-195 | every matching blocking rule appears in the output message |
| RuleEngine.RespondIgnoresWarnings | plugins/hookify/core/rule-engine.ts:174-196 | once some rule blocks, the warning rules play no part in the output |
| RuleEngine.WarningsSuppressed | plugins/hookify/core/rule-engine.ts:159-202 | once a rule blocks, inserting a matching warning rule at any position leaves the output unchanged |
| Text.TrimStart | plugins/hookify/core/config-loader.ts:40-40 | `trimStart()` drops exactly the leading whitespace: the result is a suffix, what went is all whitespace, and the result does not start with whitespace |
| Text.TrimEnd | plugins/hookify/core/config-loader.ts:37-37 | `trimEnd()` drops exactly the trailing whitespace, symmetrically |
| Text.Trim | plugins/hookify/core/config-loader.ts:37-37 | `trim()` leaves neither end whitespace and never lengthens the text |
| Text.TrimOfTrimmed | plugins/hookify/core/config-loader.ts:37-37 | trimming is idempotent: text with no whitespace at either end is its own trim |
| Text.Split | plugins/hookify/core/config-loader.ts:18-18 | `split(sep)` gives at least one piece, and at least two exactly when the text contains the separator |
| Text.SplitThenJoin | plugins/hookify/core/config-loader.ts:18-24 | joining the pieces of a split with the same separator gives the text back |
| Text.JoinThenSplit | plugins/hookify/core/rule-engine.ts:25-25 | pieces free of a one-character separator, joined and split again, come back unchanged |
| Text.StripQuotes | plugins/hookify/core/config-loader.ts:65-65 | quote stripping removes at most two characters, and leaves text that neither starts nor ends with a quote unchanged |
| Text.StripOneLayer | plugins/hookify/core/config-loader.ts:65-65 | exactly one layer of quotes goes, and the opening and closing quote need not match |
| Text.StripLeadingOnly | plugins/hookify/core/config-loader.ts:65-65 | a leading quote goes on its own when no trailing quote follows |
| Text.ToLowerAscii | plugins/hookify/core/config-loader.ts:66-68 | lower-casing keeps the length and lowers each ASCII capital, leaving every other character alone |
| Headings.H1Issues | plugins/html-checker/scripts/src/lib/analyzers.ts:42-59 | one missing-H1 issue for no H1, one multiple-H1 issue for several, and at most one of them |
| Headings.EmptyIssues | plugins/html-checker/scripts/src/lib/analyzers.ts:61-71 | one empty-heading issue per empty heading, each about an empty heading of the page |
| Headings.SkipIssues | plugins/html-checker/scripts/src/lib/analyzers.ts:73-85 | a skipped-level issue exactly for each heading more than one level deeper than a previous heading of positive level |
| Headings.CountLevels | plugins/html-checker/scripts/src/lib/analyzers.ts:36-40 | levels 1 to 6 are always counted, any other level once it occurs, and each count is the number of headings at that level |
| Headings.EmptyHeadingIssues | plugins/html-checker/scripts/src/lib/analyzers.ts:61-71 | the empty-heading loop computes the empty-heading issues |
| Headings.SkippedLevelIssues | plugins/html-checker/scripts/src/lib/analyzers.ts:73-85 | the loop threading the previous level from 0 computes the skipped-level issues |
| Headings.PageIssueCounts | plugins/html-checker/scripts/src/lib/analyzers.ts:42-85 | missing-H1 exactly when there is no H1, multiple-H1 exactly when there is more than one, never both, and one empty-heading issue per empty heading |
| Headings.PageSkipIssues | plugins/html-checker/scripts/src/lib/analyzers.ts:42-85 | every skipped-level issue of a page is one the skipped-level pass raised |
| Headings.SkipIssuesOnly | plugins/html-checker/scripts/src/lib/analyzers.ts:42-85 | the skipped-level issues of a page come only from the skipped-level pass |
| Headings.AnalyzeHeadings | plugins/html-checker/scripts/src/lib/analyzers.ts:31-94 | the per-level counts, the H1 facts, the empty-heading count, and a skipped-level issue exactly for each heading that skips |
| Links.HrefClassesExclusive | plugins/html-checker/scripts/src/lib/analyzers.ts:113-140 | an anchor is in at most one destination class, so the order of the tests does not matter |
| Links.AnchorIssueCounts | plugins/html-checker/scripts/src/lib/analyzers.ts:112-151 | one anchor gets exactly one issue of each class it is in |
| Links.AnchorsIssuesCounts | plugins/html-checker/scripts/src/lib/analyzers.ts:112-152 | the number of issues of each type is the number of anchors of its class |
| Links.DestinationClassesBound | plugins/html-checker/scripts/src/lib/analyzers.ts:113-140 | the three destination counters add up to at most the number of anchors |
| Links.ButtonsIssuesKinds | plugins/html-checker/scripts/src/lib/analyzers.ts:154-169 | the button issues are all button-no-action issues, one per button without an action |
| Links.ButtonsIssuesFacts | plugins/html-checker/scripts/src/lib/analyzers.ts:154-169 | a button gets the issue exactly when it has no onclick and is not a submit button |
| Links.AnchorPass | plugins/html-checker/scripts/src/lib/analyzers.ts:112-152 | the anchor loop's four counters count their classes |
| Links.AnchorStep | plugins/html-checker/scripts/src/lib/analyzers.ts:113-151 | one anchor appends its destination and missing-text issues and bumps the counter of each class it is in |
| Links.ButtonPass | plugins/html-checker/scripts/src/lib/analyzers.ts:154-169 | the button loop's counter counts buttons without an action |
| Links.AnalyzeLinks | plugins/html-checker/scripts/src/lib/analyzers.ts:96-179 | each counter equals both the size of its class and the number of issues of its type; the destination counters add up to at most the total |
| Images.ImageIssueCounts | plugins/html-checker/scripts/src/lib/analyzers.ts:192-247 | one image gets exactly one issue of each class it is in |
| Images.AltIssueCounts | plugins/html-checker/scripts/src/lib/analyzers.ts:193-235 | the alt branch raises one issue of each alt class the image is in and no missing-dimensions issue |
| Images.ImagesIssuesCounts | plugins/html-checker/scripts/src/lib/analyzers.ts:192-252 | the number of issues of each type is the number of images of its class |
| Images.AltClassesBound | plugins/html-checker/scripts/src/lib/analyzers.ts:193-235 | no image is in two alt classes, so the three alt counters add up to at most the total |
| Images.DimensionsPartition | plugins/html-checker/scripts/src/lib/analyzers.ts:237-247 | every image either has both dimensions or lacks one |
| Images.ImagePass | plugins/html-checker/scripts/src/lib/analyzers.ts:192-252 | the image loop's five counters count their classes |
| Images.ImageStep | plugins/html-checker/scripts/src/lib/analyzers.ts:193-251 | one image appends its alt and dimension issues and bumps the counter of each class it is in |
| Images.AnalyzeImages | plugins/html-checker/scripts/src/lib/analyzers.ts:181-261 | the alt counters match the issue counts and never overlap, and images with dimensions plus missing-dimensions issues make up the total |
| Meta.LengthIssues | plugins/html-checker/scripts/src/lib/analyzers.ts:267-291 | a missing tag is an error; a present one is flagged short below the minimum and long above the maximum; never both when minimum <= maximum |
| Meta.AbsenceIssue | plugins/html-checker/scripts/src/lib/analyzers.ts:322-329 | an optional tag is flagged exactly when it is null or empty |
| Meta.ContentIssues | plugins/html-checker/scripts/src/lib/analyzers.ts:266-319 | the title and description issues, each exactly when its condition holds |
| Meta.OpenGraphIssues | plugins/html-checker/scripts/src/lib/analyzers.ts:331-355 | the Open Graph title, description and image issues, each exactly when its tag is missing, all informational |
| Meta.SharingIssues | plugins/html-checker/scripts/src/lib/analyzers.ts:321-365 | the canonical, Open Graph and Twitter issues, each exactly when its tag is missing, none an error |
| Meta.AnalyzeMeta | plugins/html-checker/scripts/src/lib/analyzers.ts:263-373 | the analysis keeps the url and tags, only a missing title or description is an error, and there are at most 7 issues |
| Meta.TitleChecks | plugins/html-checker/scripts/src/lib/analyzers.ts:266-291 | the page's title issues: missing exactly when null or empty, too short exactly below 30 characters, too long exactly above 60, never both |
| Meta.DescriptionChecks | plugins/html-checker/scripts/src/lib/analyzers.ts:293-319 | the page's description issues: missing exactly when null or empty, too short exactly below 50 characters, too long exactly above 160, never both |
| Meta.SharingChecks | plugins/html-checker/scripts/src/lib/analyzers.ts:321-365 | the page has a missing-canonical warning and a missing-twitter-card note exactly when those tags are null or empty |
| Meta.OpenGraphChecks | plugins/html-checker/scripts/src/lib/analyzers.ts:331-355 | the page has a missing-og-title, -description or -image note exactly when that tag is null or empty |
| Forms.EmailFieldsAreMail | plugins/html-checker/scripts/src/lib/analyzers.ts:430-430 | a name mentions an email field exactly when it contains `mail` |
| Forms.PhoneFieldsReduce | plugins/html-checker/scripts/src/lib/analyzers.ts:440-440 | a name mentions a phone field exactly when it contains `phone`, `tel` or `mobile` |
| Forms.LabelIssueCounts | plugins/html-checker/scripts/src/lib/analyzers.ts:402-426 | a checked input gets a placeholder-as-label issue when it relies on a placeholder, a missing-label issue when it has no label at all, and nothing else |
| Forms.TypeIssueCounts | plugins/html-checker/scripts/src/lib/analyzers.ts:429-449 | a checked input gets one wrong-type issue exactly when its name mentions a field and its type is not the wanted one |
| Forms.InputIssueCounts | plugins/html-checker/scripts/src/lib/analyzers.ts:398-449 | one input gets one missing-label or placeholder-as-label issue when unlabelled, and one wrong-type issue per mismatch |
| Forms.UnlabelledPartition | plugins/html-checker/scripts/src/lib/analyzers.ts:402-423 | every unlabelled input either relies on a placeholder or has no label at all |
| Forms.InputsIssueCounts | plugins/html-checker/scripts/src/lib/analyzers.ts:395-450 | the label issues of a form count its unlabelled inputs, and the wrong-type issues count its mismatches |
| Forms.FormIssueCounts | plugins/html-checker/scripts/src/lib/analyzers.ts:384-450 | one form gets a no-submit issue exactly when it has no submit button, plus its inputs' label and wrong-type issues |
| Forms.FormsIssueCounts | plugins/html-checker/scripts/src/lib/analyzers.ts:384-451 | one no-submit issue per form without a submit button, and the label and wrong-type counts over all inputs |
| Forms.LabelCountsBound | plugins/html-checker/scripts/src/lib/analyzers.ts:398-426 | hidden and submit inputs are neither labelled nor unlabelled, so the two counts add up to at most the inputs |
| Forms.InputStep | plugins/html-checker/scripts/src/lib/analyzers.ts:395-449 | one input adds to the total, to the labelled or unlabelled count unless skipped, and its issues |
| Forms.LabelStep | plugins/html-checker/scripts/src/lib/analyzers.ts:402-426 | the label check bumps the labelled or the unlabelled count and appends the label issue |
| Forms.TypeStep | plugins/html-checker/scripts/src/lib/analyzers.ts:429-449 | one type check appends the wrong-type issue exactly when the name mentions a field and the type differs |
| Forms.InputPass | plugins/html-checker/scripts/src/lib/analyzers.ts:395-450 | the input loop of one form counts its inputs, labelled inputs and unlabelled inputs |
| Forms.AnalyzeForms | plugins/html-checker/scripts/src/lib/analyzers.ts:375-465 | labelled plus unlabelled is at most the total, and each issue count matches the class it flags |
| A11y.StructureIssues | plugins/html-checker/scripts/src/check-a11y.ts:128-163 | the language, skip-link and main-landmark issues, each exactly when its check fails, with its WCAG criterion |
| A11y.CountIssues | plugins/html-checker/scripts/src/check-a11y.ts:165-212 | each count-based issue exactly when its count is positive, with its WCAG criterion |
| A11y.StructureScoreIsPenalties | plugins/html-checker/scripts/src/check-a11y.ts:126-163 | the structural deductions 15, 10, 10 are those of the issues raised, at most 35 |
| A11y.CountScoreIsPenalties | plugins/html-checker/scripts/src/check-a11y.ts:165-212 | the capped count deductions are those of the issues raised, at most 65 |
| A11y.ScoreIsPenalties | plugins/html-checker/scripts/src/check-a11y.ts:126-218 | the score is 100 less the deductions of the issues raised, which total at most 100, so the clamp never applies |
| A11y.PenaltiesPositive | plugins/html-checker/scripts/src/check-a11y.ts:126-212 | when every issue costs something, the deductions total 0 exactly when there is no issue |
| A11y.AnalyzeA11y | plugins/html-checker/scripts/src/check-a11y.ts:124-221 | the score is in [0, 100], is 100 exactly when there is no issue, each issue is raised exactly when its check fails, and a missing `lang` is an error citing 3.1.1 |
| Performance.RenderIssues | plugins/html-checker/scripts/src/check-performance.ts:164-202 | the stylesheet, script and third-party issues, each exactly when its count is positive, carrying that count |
| Performance.LoadingIssues | plugins/html-checker/scripts/src/check-performance.ts:205-241 | the eager-image issue exactly when more than 5 images are eager, the dimensions and iframe issues exactly when their count is positive |
| Performance.RenderScoreIsPenalties | plugins/html-checker/scripts/src/check-performance.ts:161-202 | the capped script and stylesheet deductions are those of the issues raised, at most 55 |
| Performance.LoadingScoreIsPenalties | plugins/html-checker/scripts/src/check-performance.ts:205-241 | the capped image and iframe deductions, including floor(n/3) for eager images, are those of the issues raised, at most 35 |
| Performance.ScoreIsPenalties | plugins/html-checker/scripts/src/check-performance.ts:161-247 | the score is 100 less the deductions of the issues raised, which total at most 90 |
| Performance.PenaltiesPositive | plugins/html-checker/scripts/src/check-performance.ts:160-241 | when every issue costs something, the deductions total 0 exactly when there is no issue |
| Performance.SyncScriptsBlock | plugins/html-checker/scripts/src/check-performance.ts:177-202 | there are never more synchronous third-party scripts than render-blocking scripts |
| Performance.IssuesRaised | plugins/html-checker/scripts/src/check-performance.ts:160-241 | each of the six issues is raised exactly when its check fails, and there are at most 6 |
| Performance.AnalyzePerformance | plugins/html-checker/scripts/src/check-performance.ts:156-249 | the score is in [10, 100], is 100 exactly when there is no issue, each issue is raised exactly when its count passes its threshold, and a sync third-party issue comes with a render-blocking script issue |

## Behaviour worth knowing

- `plugins/hookify/core/config-loader.ts:135`: a condition's `operator` text is kept as written.
  Only a missing or empty operator becomes `regex_match`. An operator the engine does not know
  makes the condition false.
- `plugins/hookify/core/rule-engine.ts:66`: for Write and Edit, the fields `content`, `new_text`
  and `new_string` all read the tool's `content` first and fall back to `new_string`.
- `plugins/hookify/core/config-loader.ts:89`, `:98` and `:107`: a dict item's `split(":")` keeps
  the text between the first and the second colon as the value. Anything after a second colon
  is dropped. Quotes are stripped from the value, never from the key.
- `plugins/hookify/core/config-loader.ts:65`: quote stripping removes one leading and one
  trailing `"` or `'`, each on its own. The two need not match, and a lone quote becomes empty.
- `plugins/hookify/core/rule-engine.ts:166`: the `action` value is kept as written. Only the
  exact text `block` blocks. Every other value, including `Block`, warns.

## Left out

- Regular expressions: matching, compilation and the compiled-pattern cache are the `regex` parameter.
- File system and environment: `readFileSync`, `readdirSync`, `existsSync` and `CLAUDE_PLUGIN_ROOT` are inputs. A directory that does not exist or cannot be listed is `None`.
- The hook entry points, the html-checker command-line `main` functions, the page fetcher, the HTML parser, `parseA11yInfo` and `parsePerformanceInfo`: these are I/O and regex scraping, not part of the core.
- The license checker, the notification hook and the Markdown formatter: network, clock and subprocess code, not part of the core.
- Console warnings and errors logged by the loader and the regex test.
- Output formatting, colours and the `timestamp` field: presentation only.
- Issue `message` and `details` text. The performance issue keeps the count its message reports.
- Tool-input values that are not strings are not modelled, except the MultiEdit `edits` list. A direct `edits` key prints as `[object Object]` entries.
- Prototype keys of JavaScript objects are not modelled. `field in toolInput` also sees inherited names such as `constructor`.
- A key named `__proto__` is an ordinary key in the model. In the source, assigning to it on the metadata object (`plugins/hookify/core/config-loader.ts:29`) or on an inline item dict (`plugins/hookify/core/config-loader.ts:86-90`) is silently ignored for a text or boolean value, and a list value replaces the object's prototype. In both cases no such key appears.
- String lengths are counted in Unicode scalar values, not UTF-16 code units. The meta and alt length limits can differ on text outside the Basic Multilingual Plane.
- `toLowerCase` is modelled on ASCII letters only. It is exact for every comparison the code makes: `true`/`false`, and the generic alt words and field names, which are ASCII.
- Issue types the record types declare but the analyzers never raise are left out: heading `wrong-order`, link `dead-link`, image `no-lazy-loading`, form `empty-label`, `missing-id`, `missing-autocomplete` and `missing-action`, accessibility `invalid-aria`, and performance `missing-preconnect`.
- `Headings.SkipIssues`: ordering is stated as membership (each skipping heading has its issue, every issue is about a skipping heading). The loop method proves the exact sequence.
