/** The frontmatter scanner of the rule loader (`extractFrontmatter`): the text between the first
    two `---` delimiters is read line by line, as a left fold whose state record holds the
    scanner's flags, its current key, list and dict, and the mapping built so far. */
module Frontmatter {
  import opened Wrappers
  import opened HookifyTypes
  import Text

  /** The scanner's `frontmatter`, `currentKey`, `currentList`, `currentDict`, `inList` and
      `inDictItem`. The source starts `currentKey` at `null` and only ever tests it for truthiness,
      so `null` and the empty key are both the empty string here. */
  datatype ScanState = ScanState(
    fm: Metadata,
    key: string,
    list: seq<Item>,
    dict: map<string, string>,
    inList: bool,
    inDict: bool)

  const Start := ScanState(map[], "", [], map[], false, false)

  /** What every reachable state satisfies: a multi-line dict is only open inside a list, and it is
      open exactly when it holds a key. */
  ghost predicate Inv(st: ScanState) {
    (st.inDict ==> st.inList) && (st.inDict <==> st.dict != map[])
  }

  /** `line.length - line.trimStart().length`. */
  function Indent(line: string): nat {
    |line| - |Text.TrimStart(line)|
  }

  /** A scalar value: quote-stripped, with `true` and `false` in any letter case becoming booleans. */
  function Coerce(value: string): (v: Value)
    ensures v.Bool? <==> Text.ToLowerAscii(Text.StripQuotes(value)) in {"true", "false"}
    ensures v.Bool? ==> (v.b <==> Text.ToLowerAscii(Text.StripQuotes(value)) == "true")
    ensures v.Str? ==> v.s == Text.StripQuotes(value)
    ensures !v.List?
  {
    var clean := Text.StripQuotes(value);
    if Text.ToLowerAscii(clean) == "true" then Bool(true)
    else if Text.ToLowerAscii(clean) == "false" then Bool(false)
    else Str(clean)
  }

  /** `const [k, v] = text.split(":")` followed by trimming both and quote-stripping `v`: the key is
      the text before the first colon, the value the text between the first and the second colon. */
  function KeyValue(text: string): (kv: (string, string))
    requires Text.Contains(text, ":")
  {
    var parts := Text.Split(text, ":");
    (Text.Trim(parts[0]), Text.StripQuotes(Text.Trim(parts[1])))
  }

  /** An inline item `k1: v1, k2: v2`: every comma-separated part holding a colon contributes one
      pair, and a later pair overrides an earlier one with the same key. */
  function InlineDict(parts: seq<string>): map<string, string> {
    if |parts| == 0 then map[]
    else
      var last := parts[|parts| - 1];
      if Text.Contains(last, ":") then InlineDict(parts[..|parts| - 1])[KeyValue(last).0 := KeyValue(last).1]
      else InlineDict(parts[..|parts| - 1])
  }

  /** The current list with the open multi-line dict pushed onto it, if it holds a key. */
  function Pending(st: ScanState): seq<Item> {
    if st.inDict && st.dict != map[] then st.list + [Dict(st.dict)] else st.list
  }

  /** "Save previous list": when a list is open under a non-empty key, it is stored under that key. */
  function SaveList(st: ScanState): ScanState {
    if st.inList && st.key != "" then
      st.(fm := st.fm[st.key := List(Pending(st))],
          dict := if st.inDict && st.dict != map[] then map[] else st.dict,
          inList := false,
          inDict := false,
          list := [])
    else st
  }

  /** A zero-indent `key: value` line. */
  function TopLevel(st: ScanState, line: string): ScanState
    requires Text.Contains(line, ":")
  {
    var saved := SaveList(st);
    var colon := Text.Find(line, ":").value;
    var key := Text.Trim(line[..colon]);
    var value := Text.Trim(line[colon + 1..]);
    if value == "" then saved.(key := key, inList := true, list := [])
    else saved.(fm := saved.fm[key := Coerce(value)])
  }

  /** A `- item` line inside a list. */
  function ListItem(st: ScanState, stripped: string): ScanState
    requires Text.StartsWith(stripped, "-")
  {
    var flushed := if st.inDict && st.dict != map[] then st.(list := st.list + [Dict(st.dict)], dict := map[]) else st;
    var item := Text.Trim(stripped[1..]);
    if Text.Contains(item, ":") && Text.Contains(item, ",") then
      flushed.(list := flushed.list + [Dict(InlineDict(Text.Split(item, ",")))], inDict := false)
    else if Text.Contains(item, ":") then
      flushed.(inDict := true, dict := map[KeyValue(item).0 := KeyValue(item).1])
    else
      flushed.(list := flushed.list + [Scalar(Text.StripQuotes(item))], inDict := false)
  }

  /** A `key: value` line continuing a multi-line dict. */
  function Continuation(st: ScanState, stripped: string): ScanState
    requires Text.Contains(stripped, ":")
  {
    st.(dict := st.dict[KeyValue(stripped).0 := KeyValue(stripped).1])
  }

  predicate IsTopLevel(line: string) {
    var stripped := Text.Trim(line);
    Indent(line) == 0 && Text.Contains(line, ":") && !Text.StartsWith(stripped, "-")
  }

  /** One iteration of the scanning loop. */
  function Step(st: ScanState, line: string): ScanState {
    var stripped := Text.Trim(line);
    if stripped == "" || Text.StartsWith(stripped, "#") then st
    else if Indent(line) == 0 && Text.Contains(line, ":") && !Text.StartsWith(stripped, "-") then TopLevel(st, line)
    else if Text.StartsWith(stripped, "-") && st.inList then ListItem(st, stripped)
    else if Indent(line) > 2 && st.inDict && Text.Contains(stripped, ":") then Continuation(st, stripped)
    else st
  }

  /** The scanning loop over `lines`, from state `st`. */
  function Scan(st: ScanState, lines: seq<string>): ScanState
    decreases |lines|
  {
    if |lines| == 0 then st else Scan(Step(st, lines[0]), lines[1..])
  }

  /** "Save final list": the open list, with its open dict, is stored under a non-empty key. */
  function Finish(st: ScanState): Metadata {
    if st.inList && st.key != "" then st.fm[st.key := List(Pending(st))] else st.fm
  }

  /** The metadata mapping of a frontmatter region. */
  function ParseMetadata(text: string): Metadata {
    Finish(Scan(Start, Text.Split(text, "\n")))
  }

  datatype Extracted = Extracted(frontmatter: Metadata, message: string)

  /** `extractFrontmatter`: text that does not start with `---`, or that has fewer than two further
      delimiters, has no metadata and is all message; otherwise the metadata comes from the first
      region and the message is everything after the second delimiter, trimmed. */
  function ExtractFrontmatter(content: string): (r: Extracted)
    ensures !Text.StartsWith(content, "---") ==> r == Extracted(map[], content)
    ensures r.message == content || Text.Trimmed(r.message)
  {
    if !Text.StartsWith(content, "---") then Extracted(map[], content)
    else
      var parts := Text.Split(content, "---");
      if |parts| < 3 then Extracted(map[], content)
      else Extracted(ParseMetadata(parts[1]), Text.Trim(Text.Join(parts[2..], "---")))
  }
}
