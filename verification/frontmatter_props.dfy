/** What the frontmatter scanner promises: the state invariant it keeps, how each kind of line
    moves the state, and where the metadata region and the message come from. */
module FrontmatterProps {
  import opened Wrappers
  import opened HookifyTypes
  import opened Frontmatter
  import Text

  /** Every line keeps the scanner's invariant. */
  lemma StepKeepsInv(st: ScanState, line: string)
    requires Inv(st)
    ensures Inv(Step(st, line))
  {
    var stripped := Text.Trim(line);
    if stripped == "" || Text.StartsWith(stripped, "#") {
    } else if Indent(line) == 0 && Text.Contains(line, ":") && !Text.StartsWith(stripped, "-") {
      TopLevelKeepsInv(st, line);
    } else if Text.StartsWith(stripped, "-") && st.inList {
      ListItemKeepsInv(st, stripped);
    } else if Indent(line) > 2 && st.inDict && Text.Contains(stripped, ":") {
    } else {
    }
  }

  lemma TopLevelKeepsInv(st: ScanState, line: string)
    requires Inv(st) && Text.Contains(line, ":")
    ensures Inv(TopLevel(st, line))
  {
    assert Inv(SaveList(st));
  }

  lemma ListItemKeepsInv(st: ScanState, stripped: string)
    requires Inv(st) && st.inList && Text.StartsWith(stripped, "-")
    ensures Inv(ListItem(st, stripped))
  {
    var item := Text.Trim(stripped[1..]);
    if Text.Contains(item, ":") && !Text.Contains(item, ",") {
      var kv := KeyValue(item);
      assert kv.0 in ListItem(st, stripped).dict;
    }
  }

  /** Every state the scanning loop reaches from its start satisfies the invariant. */
  lemma {:induction false} ScanKeepsInv(st: ScanState, lines: seq<string>)
    requires Inv(st)
    ensures Inv(Scan(st, lines))
    decreases |lines|
  {
    if |lines| > 0 {
      StepKeepsInv(st, lines[0]);
      ScanKeepsInv(Step(st, lines[0]), lines[1..]);
    }
  }

  /** Blank lines and comment lines never change the state. */
  lemma SkippedLine(st: ScanState, line: string)
    requires Text.AllSpace(line) || Text.StartsWith(Text.Trim(line), "#")
    ensures Step(st, line) == st
  {
    Text.TrimEmptyIff(line);
  }

  /** A key at the start of a line: what shape the line has to have. */
  predicate KeyStart(k: string) {
    |k| > 0 && !Text.IsSpace(k[0]) && k[0] != '-' && k[0] != '#' && ':' !in k
  }

  lemma TopLevelShape(k: string, v: string)
    requires KeyStart(k)
    ensures var line := k + ":" + v;
      && Text.Trim(line) != ""
      && !Text.StartsWith(Text.Trim(line), "#")
      && !Text.StartsWith(Text.Trim(line), "-")
      && Indent(line) == 0
      && Text.Contains(line, ":")
      && Text.Find(line, ":") == Some(|k|)
      && line[..|k|] == k
      && line[|k| + 1..] == v
  {
    var line := k + ":" + v;
    Text.TrimKeepsFirst(line);
    Text.StartsWithChar(Text.Trim(line), '#');
    Text.StartsWithChar(Text.Trim(line), '-');
    Text.ContainsChar(k, ':');
    assert k + ":"[..0] == k;
    Text.FindAfter(k, ":", v);
  }

  lemma StepOnTopLevel(st: ScanState, line: string)
    requires Text.Trim(line) != "" && !Text.StartsWith(Text.Trim(line), "#")
    requires Indent(line) == 0 && Text.Contains(line, ":") && !Text.StartsWith(Text.Trim(line), "-")
    ensures Step(st, line) == TopLevel(st, line)
  {
  }

  lemma TopLevelSplit(st: ScanState, line: string, k: string, v: string)
    requires Text.Find(line, ":") == Some(|k|) && line[..|k|] == k && line[|k| + 1..] == v
    ensures TopLevel(st, line) ==
      if Text.Trim(v) == "" then SaveList(st).(key := Text.Trim(k), inList := true, list := [])
      else SaveList(st).(fm := SaveList(st).fm[Text.Trim(k) := Coerce(Text.Trim(v))])
  {
  }

  lemma TopLevelEffect(st: ScanState, key: string, value: string, r: ScanState)
    requires r == if value == "" then SaveList(st).(key := key, inList := true, list := [])
      else SaveList(st).(fm := SaveList(st).fm[key := Coerce(value)])
    ensures value != "" ==> key in r.fm && r.fm[key] == Coerce(value) && r.inList == (st.inList && st.key == "")
    ensures value == "" ==> r.inList && r.key == key && r.list == []
    ensures st.inList && st.key != "" && st.key != key ==> st.key in r.fm && r.fm[st.key] == List(Pending(st))
    ensures forall key' :: key' in st.fm && key' != key && !(st.inList && key' == st.key) ==> key' in r.fm && r.fm[key'] == st.fm[key']
  {
  }

  /** A zero-indent `key: value` line stores the coerced scalar under the trimmed key; with an empty
      value it opens an empty list under the key instead. Either way a list open under another
      non-empty key is stored first, open dict included, and closed. A list opened under the empty
      key (a line `:`) is never stored and stays open, because the source tests the key for
      truthiness. No other key changes. */
  lemma TopLevelLine(st: ScanState, line: string, k: string, v: string)
    requires line == k + ":" + v && KeyStart(k)
    ensures var r := Step(st, line);
      && (Text.Trim(v) != "" ==> Text.Trim(k) in r.fm && r.fm[Text.Trim(k)] == Coerce(Text.Trim(v)) && r.inList == (st.inList && st.key == ""))
      && (Text.Trim(v) == "" ==> r.inList && r.key == Text.Trim(k) && r.list == [])
      && (st.inList && st.key != "" && st.key != Text.Trim(k) ==> st.key in r.fm && r.fm[st.key] == List(Pending(st)))
      && (forall key :: key in st.fm && key != Text.Trim(k) && !(st.inList && key == st.key) ==> key in r.fm && r.fm[key] == st.fm[key])
  {
    TopLevelShape(k, v);
    StepOnTopLevel(st, line);
    TopLevelSplit(st, line, k, v);
    TopLevelEffect(st, Text.Trim(k), Text.Trim(v), Step(st, line));
  }

  /** A dash line outside a list changes nothing. */
  lemma DashLineOutsideList(st: ScanState, line: string)
    requires Inv(st) && !st.inList
    requires Text.StartsWith(Text.Trim(line), "-")
    ensures Step(st, line) == st
  {
    Text.StartsWithChar(Text.Trim(line), '-');
    Text.StartsWithChar(Text.Trim(line), '#');
  }

  lemma StepOnDash(st: ScanState, line: string)
    requires st.inList && Text.StartsWith(Text.Trim(line), "-")
    ensures Step(st, line) == ListItem(st, Text.Trim(line))
  {
    var stripped := Text.Trim(line);
    Text.StartsWithChar(stripped, '-');
    Text.StartsWithChar(stripped, '#');
    assert stripped != "" && !Text.StartsWith(stripped, "#");
  }

  lemma ListItemEffect(st: ScanState, stripped: string)
    requires Text.StartsWith(stripped, "-")
    ensures var item, r := Text.Trim(stripped[1..]), ListItem(st, stripped);
      && r.fm == st.fm && r.key == st.key && r.inList == st.inList
      && (Text.Contains(item, ":") && Text.Contains(item, ",") ==>
            r.list == Pending(st) + [Dict(InlineDict(Text.Split(item, ",")))] && !r.inDict)
      && (Text.Contains(item, ":") && !Text.Contains(item, ",") ==>
            r.list == Pending(st) && r.inDict && r.dict == map[KeyValue(item).0 := KeyValue(item).1])
      && (!Text.Contains(item, ":") ==> r.list == Pending(st) + [Scalar(Text.StripQuotes(item))] && !r.inDict)
  {
    var item, r := Text.Trim(stripped[1..]), ListItem(st, stripped);
    var flushed := if st.inDict && st.dict != map[] then st.(list := st.list + [Dict(st.dict)], dict := map[]) else st;
    assert flushed.list == Pending(st) && flushed.fm == st.fm && flushed.key == st.key && flushed.inList == st.inList;
    var hasColon, hasComma := Text.Contains(item, ":"), Text.Contains(item, ",");
    if hasColon && hasComma {
      var d := InlineDict(Text.Split(item, ","));
      assert r == flushed.(list := flushed.list + [Dict(d)], inDict := false);
    } else if hasColon {
      var kv := KeyValue(item);
      assert r == flushed.(inDict := true, dict := map[kv.0 := kv.1]);
    } else {
      assert r == flushed.(list := flushed.list + [Scalar(Text.StripQuotes(item))], inDict := false);
    }
  }

  /** A dash line inside a list: an item holding a colon and a comma is an inline dict, one holding
      only a colon opens a multi-line dict, and anything else is a quote-stripped scalar. A dict
      left open by the previous item is pushed first. */
  lemma ListItemLine(st: ScanState, line: string)
    requires st.inList
    requires Text.StartsWith(Text.Trim(line), "-")
    ensures var item := Text.Trim(Text.Trim(line)[1..]);
      var r := Step(st, line);
      && r.fm == st.fm && r.key == st.key && r.inList
      && (Text.Contains(item, ":") && Text.Contains(item, ",") ==>
            r.list == Pending(st) + [Dict(InlineDict(Text.Split(item, ",")))] && !r.inDict)
      && (Text.Contains(item, ":") && !Text.Contains(item, ",") ==>
            r.list == Pending(st) && r.inDict && r.dict == map[KeyValue(item).0 := KeyValue(item).1])
      && (!Text.Contains(item, ":") ==>
            r.list == Pending(st) + [Scalar(Text.StripQuotes(item))] && !r.inDict)
  {
    StepOnDash(st, line);
    ListItemEffect(st, Text.Trim(line));
  }

  /** A line that is neither a top-level key nor a dash line only ever touches the open dict, and
      only when it is indented more than two columns, a dict is open and the line holds a colon. */
  lemma OtherLine(st: ScanState, line: string)
    requires !IsTopLevel(line) && !Text.StartsWith(Text.Trim(line), "-")
    ensures var r := Step(st, line);
      && r.fm == st.fm && r.key == st.key && r.list == st.list
      && r.inList == st.inList && r.inDict == st.inDict
      && (r.dict != st.dict ==> Indent(line) > 2 && st.inDict && Text.Contains(Text.Trim(line), ":"))
      && (Indent(line) > 2 && st.inDict && Text.Contains(Text.Trim(line), ":") && !Text.StartsWith(Text.Trim(line), "#") ==>
            r.dict == st.dict[KeyValue(Text.Trim(line)).0 := KeyValue(Text.Trim(line)).1])
  {
    var stripped := Text.Trim(line);
    var r := Step(st, line);
    if Text.Contains(stripped, ":") {
      Text.ContainsIff(stripped, ":");
      assert stripped != "";
    }
    if stripped == "" || Text.StartsWith(stripped, "#") {
      assert r == st;
    } else if Indent(line) > 2 && st.inDict && Text.Contains(stripped, ":") {
      assert r == Continuation(st, stripped);
    } else {
      assert r == st;
    }
  }

  lemma SplitDelimited(region: string, body: string)
    requires !Text.Contains(region + "--", "---")
    ensures Text.Split("---" + region + "---" + body, "---") == ["", region] + Text.Split(body, "---")
  {
    assert Text.Find("--", "---") == None;
    assert "" + "---"[..2] == "--";
    assert "---" + region + "---" + body == "" + "---" + (region + "---" + body);
    Text.SplitAfter("", "---", region + "---" + body);
    assert "---"[..2] == "--";
    Text.SplitAfter(region, "---", body);
  }

  lemma ExtractOnParts(content: string, region: string, tail: seq<string>)
    requires Text.StartsWith(content, "---") && |tail| >= 1
    requires Text.Split(content, "---") == ["", region] + tail
    ensures ExtractFrontmatter(content) == Extracted(ParseMetadata(region), Text.Trim(Text.Join(tail, "---")))
  {
    var parts := Text.Split(content, "---");
    assert parts[1] == region && parts[2..] == tail;
  }

  /** A document `---<region>---<body>` whose region holds no delimiter (not even one running into
      the closing one) takes its metadata from the region alone, and its message is the body
      trimmed, even when the body holds further delimiters. */
  lemma DelimitedDocument(region: string, body: string)
    requires !Text.Contains(region + "--", "---")
    ensures ExtractFrontmatter("---" + region + "---" + body) == Extracted(ParseMetadata(region), Text.Trim(body))
  {
    var content := "---" + region + "---" + body;
    assert content[..3] == "---";
    SplitDelimited(region, body);
    ExtractOnParts(content, region, Text.Split(body, "---"));
    Text.SplitThenJoin(body, "---");
  }

  /** Text that starts with `---` but has no second delimiter has no metadata and is all message. */
  lemma OneDelimiterOnly(rest: string)
    requires !Text.Contains(rest, "---")
    ensures ExtractFrontmatter("---" + rest) == Extracted(map[], "---" + rest)
  {
    assert Text.Find("--", "---") == None;
    assert "" + "---"[..2] == "--";
    assert "---" + rest == "" + "---" + rest;
    Text.SplitAfter("", "---", rest);
    Text.SplitWhole(rest, "---");
  }
}
