/** The scanner read backwards: a region written in the simplest layout parses back to the
    mapping it was written from. Each scalar is one `key: value` line; each list is a `key:` line
    followed by its items, where an item is a scalar `  - text`, a dict on one line
    `  - k1: v1,k2: v2`, or a dict over several lines, `  - k1: v1` then `    k2: v2` lines. */
module FrontmatterRoundTrip {
  import opened HookifyTypes
  import opened Frontmatter
  import FrontmatterProps
  import Text

  /** One `key: value` pair of a list dict. */
  datatype Pair = Pair(key: string, value: string)

  /** One list item: a scalar, a dict written on one line, or a dict written over several. */
  datatype ItemSpec = Plain(text: string) | OneLine(pairs: seq<Pair>) | MultiLine(pairs: seq<Pair>)

  /** One top-level entry of a region. */
  datatype Entry = ScalarEntry(key: string, value: string) | ListEntry(key: string, items: seq<ItemSpec>)

  predicate GoodKey(k: string) {
    FrontmatterProps.KeyStart(k) && Text.Trimmed(k) && '\n' !in k
  }

  predicate GoodText(t: string) {
    t != "" && Text.Trimmed(t) && '\n' !in t
  }

  /** A pair whose key and value hold neither of the scanner's separators, colon and comma. */
  predicate GoodPair(p: Pair) {
    GoodKey(p.key) && ',' !in p.key && GoodText(p.value) && ':' !in p.value && ',' !in p.value
  }

  predicate GoodPairs(ps: seq<Pair>) {
    forall i :: 0 <= i < |ps| ==> GoodPair(ps[i])
  }

  /** A scalar item holds no colon (one with a colon would be a dict); a one-line dict needs a
      comma, so at least two pairs; a multi-line dict needs its first pair. */
  predicate GoodItem(it: ItemSpec) {
    match it
    case Plain(t) => GoodText(t) && ':' !in t
    case OneLine(ps) => |ps| >= 2 && GoodPairs(ps)
    case MultiLine(ps) => |ps| >= 1 && GoodPairs(ps)
  }

  predicate GoodItems(items: seq<ItemSpec>) {
    forall i :: 0 <= i < |items| ==> GoodItem(items[i])
  }

  /** A key the scanner reads back unchanged, a non-empty trimmed value, and well-formed items. */
  predicate GoodEntry(e: Entry) {
    GoodKey(e.key) &&
    match e
    case ScalarEntry(_, v) => GoodText(v)
    case ListEntry(_, items) => GoodItems(items)
  }

  function PairText(p: Pair): string {
    p.key + ": " + p.value
  }

  function PairTexts(ps: seq<Pair>): (ts: seq<string>)
    ensures |ts| == |ps|
    ensures forall i :: 0 <= i < |ps| ==> ts[i] == PairText(ps[i])
  {
    seq(|ps|, i requires 0 <= i < |ps| => PairText(ps[i]))
  }

  function ItemLine(text: string): string {
    "  - " + text
  }

  /** A line continuing a multi-line dict, indented past the scanner's threshold of two. */
  function ContLine(p: Pair): string {
    "    " + PairText(p)
  }

  function ContLines(ps: seq<Pair>): (lines: seq<string>)
    ensures |lines| == |ps|
    ensures forall i :: 0 <= i < |ps| ==> lines[i] == ContLine(ps[i])
  {
    seq(|ps|, i requires 0 <= i < |ps| => ContLine(ps[i]))
  }

  function ItemSpecLines(it: ItemSpec): seq<string> {
    match it
    case Plain(t) => [ItemLine(t)]
    case OneLine(ps) => [ItemLine(Text.Join(PairTexts(ps), ","))]
    case MultiLine(ps) => if |ps| == 0 then [] else [ItemLine(PairText(ps[0]))] + ContLines(ps[1..])
  }

  function ItemLines(items: seq<ItemSpec>): seq<string>
    decreases |items|
  {
    if |items| == 0 then [] else ItemSpecLines(items[0]) + ItemLines(items[1..])
  }

  function EntryLines(e: Entry): seq<string> {
    match e
    case ScalarEntry(k, v) => [k + ": " + v]
    case ListEntry(k, items) => [k + ":"] + ItemLines(items)
  }

  function Lines(entries: seq<Entry>): seq<string> {
    if |entries| == 0 then [] else EntryLines(entries[0]) + Lines(entries[1..])
  }

  /** The region of a rule file holding `entries`: the lines of the entries between the line
      break after the opening delimiter and the one before the closing delimiter. */
  function Region(entries: seq<Entry>): string {
    Text.Join([""] + Lines(entries) + [""], "\n")
  }

  /** The mapping `m` extended by `ps` in order, a later pair overriding an earlier one with the
      same key. Values lose one layer of quotes; keys are kept as they are. */
  function PairsOnto(m: map<string, string>, ps: seq<Pair>): map<string, string>
    decreases |ps|
  {
    if |ps| == 0 then m else PairsOnto(m[ps[0].key := Text.StripQuotes(ps[0].value)], ps[1..])
  }

  /** The list item the scanner makes of an item. */
  function ItemValue(it: ItemSpec): Item {
    match it
    case Plain(t) => Scalar(Text.StripQuotes(t))
    case OneLine(ps) => Dict(PairsOnto(map[], ps))
    case MultiLine(ps) => Dict(PairsOnto(map[], ps))
  }

  function Values(items: seq<ItemSpec>): (r: seq<Item>)
    ensures |r| == |items|
    ensures forall i :: 0 <= i < |items| ==> r[i] == ItemValue(items[i])
  {
    seq(|items|, i requires 0 <= i < |items| => ItemValue(items[i]))
  }

  /** What an entry binds its key to: a coerced scalar, or the list of its items. */
  function EntryValue(e: Entry): Value {
    match e
    case ScalarEntry(_, v) => Coerce(v)
    case ListEntry(_, items) => List(Values(items))
  }

  /** The mapping `m` extended by `entries` in order, a later entry overriding an earlier one. */
  function Expected(m: Metadata, entries: seq<Entry>): Metadata
    decreases |entries|
  {
    if |entries| == 0 then m else Expected(m[entries[0].key := EntryValue(entries[0])], entries[1..])
  }

  /** A scanner state between entries: any open list has a key. */
  ghost predicate Settled(st: ScanState) {
    Inv(st) && (st.inList ==> st.key != "")
  }

  /** A scanner state between the items of a list: the list is open under a key. */
  ghost predicate ListOpen(st: ScanState) {
    Inv(st) && st.inList && st.key != ""
  }

  lemma {:induction false} ScanAppend(st: ScanState, a: seq<string>, b: seq<string>)
    ensures Scan(st, a + b) == Scan(Scan(st, a), b)
    decreases |a|
  {
    if |a| > 0 {
      assert (a + b)[0] == a[0];
      assert (a + b)[1..] == a[1..] + b;
      ScanAppend(Step(st, a[0]), a[1..], b);
    } else {
      assert a + b == b;
    }
  }

  lemma ScanFirst(st: ScanState, lines: seq<string>)
    requires |lines| > 0
    ensures Scan(st, lines) == Scan(Step(st, lines[0]), lines[1..])
  {
  }

  lemma ScanOne(st: ScanState, line: string)
    ensures Scan(st, [line]) == Step(st, line)
  {
    assert [line][1..] == [];
  }

  lemma TrimGoodKey(k: string)
    requires GoodKey(k)
    ensures Text.Trim(k) == k
  {
    Text.TrimOfTrimmed(k);
  }

  lemma TrimAfterBlank(v: string)
    requires Text.Trimmed(v)
    ensures Text.Trim(" " + v) == v
  {
    assert Text.AllSpace(" ");
    Text.TrimPadded(" ", v, "");
    assert " " + v + "" == " " + v;
  }

  /** What a `key: value` line does to any state. */
  lemma ScalarLineEffect(st: ScanState, k: string, v: string)
    requires GoodKey(k) && GoodText(v)
    ensures Step(st, k + ": " + v) == SaveList(st).(fm := SaveList(st).fm[k := Coerce(v)])
  {
    var line := k + ": " + v;
    assert line == k + ":" + (" " + v);
    FrontmatterProps.TopLevelShape(k, " " + v);
    FrontmatterProps.StepOnTopLevel(st, line);
    FrontmatterProps.TopLevelSplit(st, line, k, " " + v);
    TrimGoodKey(k);
    TrimAfterBlank(v);
  }

  /** Saving the open list of a settled state, open dict included, closes it without changing
      the final mapping. */
  lemma SaveListSettled(st: ScanState)
    requires Settled(st)
    ensures var s := SaveList(st); Settled(s) && !s.inList && !s.inDict && s.dict == map[] && s.fm == Finish(st)
  {
  }

  lemma ScalarLineStep(st: ScanState, k: string, v: string)
    requires Settled(st) && GoodKey(k) && GoodText(v)
    ensures var r := Step(st, k + ": " + v);
      Settled(r) && !r.inList && Finish(r) == Finish(st)[k := Coerce(v)]
  {
    ScalarLineEffect(st, k, v);
    SaveListSettled(st);
    var s := SaveList(st);
    var r := s.(fm := s.fm[k := Coerce(v)]);
    assert Settled(r) && !r.inList;
    assert Finish(r) == r.fm;
  }

  lemma HeaderLineEffect(st: ScanState, k: string)
    requires GoodKey(k)
    ensures Step(st, k + ":") == SaveList(st).(key := k, inList := true, list := [])
  {
    var line := k + ":";
    assert line == k + ":" + "";
    FrontmatterProps.TopLevelShape(k, "");
    FrontmatterProps.StepOnTopLevel(st, line);
    FrontmatterProps.TopLevelSplit(st, line, k, "");
    TrimGoodKey(k);
    assert Text.Trim("") == "";
  }

  /** A `key:` line opens an empty list under the key; a key no items follow ends up bound to
      the empty list. */
  lemma HeaderLineStep(st: ScanState, k: string)
    requires Settled(st) && GoodKey(k)
    ensures var r := Step(st, k + ":");
      ListOpen(r) && r.key == k && Pending(r) == [] && Finish(r) == Finish(st)[k := List([])]
  {
    HeaderLineEffect(st, k);
    SaveListSettled(st);
    var s := SaveList(st);
    var r := s.(key := k, inList := true, list := []);
    assert ListOpen(r) && Pending(r) == [];
  }

  lemma TrimItemLine(item: string)
    requires GoodText(item)
    ensures Text.Trim(ItemLine(item)) == "- " + item
  {
    var stripped := "- " + item;
    assert ItemLine(item) == "  " + stripped + "";
    assert Text.AllSpace("  ") && Text.AllSpace("");
    Text.TrimPadded("  ", stripped, "");
  }

  /** An item line is a dash line whose item is the text after the dash. */
  lemma ItemLineTrim(text: string)
    requires GoodText(text)
    ensures Text.StartsWith(Text.Trim(ItemLine(text)), "-")
    ensures Text.Trim(Text.Trim(ItemLine(text))[1..]) == text
  {
    var stripped := "- " + text;
    TrimItemLine(text);
    assert stripped[..1] == "-";
    assert stripped[1..] == " " + text;
    TrimAfterBlank(text);
  }

  /** An item line inside an open list: the three kinds of item, as the scanner tells them apart,
      with the list kept open under its key. */
  lemma ItemLineEffect(st: ScanState, text: string)
    requires ListOpen(st) && GoodText(text)
    ensures var r := Step(st, ItemLine(text));
      && ListOpen(r) && r.fm == st.fm && r.key == st.key
      && (Text.Contains(text, ":") && Text.Contains(text, ",") ==>
            r.list == Pending(st) + [Dict(InlineDict(Text.Split(text, ",")))] && !r.inDict)
      && (Text.Contains(text, ":") && !Text.Contains(text, ",") ==>
            r.list == Pending(st) && r.inDict && r.dict == map[KeyValue(text).0 := KeyValue(text).1])
      && (!Text.Contains(text, ":") ==> r.list == Pending(st) + [Scalar(Text.StripQuotes(text))] && !r.inDict)
  {
    ItemLineTrim(text);
    FrontmatterProps.ListItemLine(st, ItemLine(text));
    FrontmatterProps.StepKeepsInv(st, ItemLine(text));
  }

  lemma PlainItemStep(st: ScanState, t: string)
    requires ListOpen(st) && GoodText(t) && ':' !in t
    ensures var r := Step(st, ItemLine(t));
      ListOpen(r) && r.fm == st.fm && r.key == st.key && Pending(r) == Pending(st) + [Scalar(Text.StripQuotes(t))]
  {
    Text.ContainsChar(t, ':');
    ItemLineEffect(st, t);
  }

  /** The text of a pair is a well-formed item text holding a colon and no comma. */
  lemma PairTextShape(p: Pair)
    requires GoodPair(p)
    ensures GoodText(PairText(p)) && ':' in PairText(p) && ',' !in PairText(p)
    ensures PairText(p)[0] == p.key[0]
  {
    var t := PairText(p);
    assert t[|p.key|] == ':';
    assert t[|t| - 1] == p.value[|p.value| - 1];
  }

  /** The scanner's `split(":")` reading of a pair's text gives back the pair, quote-stripped. */
  lemma PairKeyValue(p: Pair)
    requires GoodPair(p)
    ensures Text.Contains(PairText(p), ":") && KeyValue(PairText(p)) == (p.key, Text.StripQuotes(p.value))
  {
    var rest := " " + p.value;
    PairTextShape(p);
    Text.ContainsChar(PairText(p), ':');
    Text.ContainsChar(p.key, ':');
    Text.ContainsChar(rest, ':');
    assert ":"[..0] == "" && p.key + "" == p.key;
    assert PairText(p) == p.key + ":" + rest;
    Text.SplitAfter(p.key, ":", rest);
    Text.SplitWhole(rest, ":");
    TrimGoodKey(p.key);
    TrimAfterBlank(p.value);
  }

  lemma {:induction false} PairsOntoSnoc(m: map<string, string>, ps: seq<Pair>)
    requires |ps| > 0
    ensures PairsOnto(m, ps) == PairsOnto(m, ps[..|ps| - 1])[ps[|ps| - 1].key := Text.StripQuotes(ps[|ps| - 1].value)]
    decreases |ps|
  {
    var m' := m[ps[0].key := Text.StripQuotes(ps[0].value)];
    if |ps| > 1 {
      PairsOntoSnoc(m', ps[1..]);
      assert ps[1..][..|ps| - 2] == ps[..|ps| - 1][1..];
    }
  }

  lemma {:induction false} PairsOntoKeeps(m: map<string, string>, ps: seq<Pair>, k: string)
    requires k in m
    ensures k in PairsOnto(m, ps)
    decreases |ps|
  {
    if |ps| > 0 {
      PairsOntoKeeps(m[ps[0].key := Text.StripQuotes(ps[0].value)], ps[1..], k);
    }
  }

  /** Reading the parts of a one-line dict adds its last pair to the reading of the others. */
  lemma InlineDictSnoc(ps: seq<Pair>)
    requires |ps| > 0 && GoodPair(ps[|ps| - 1])
    ensures var n := |ps| - 1;
      InlineDict(PairTexts(ps)) == InlineDict(PairTexts(ps[..n]))[ps[n].key := Text.StripQuotes(ps[n].value)]
  {
    var n := |ps| - 1;
    var parts := PairTexts(ps);
    var front := PairTexts(ps[..n]);
    var last := PairText(ps[n]);
    assert parts == front + [last];
    PairKeyValue(ps[n]);
    InlineDictLast(front, last);
  }

  lemma InlineDictLast(front: seq<string>, last: string)
    requires Text.Contains(last, ":")
    ensures InlineDict(front + [last]) == InlineDict(front)[KeyValue(last).0 := KeyValue(last).1]
  {
    var parts := front + [last];
    assert parts[|parts| - 1] == last;
    assert parts[..|parts| - 1] == front;
  }

  /** The scanner's reading of the comma-separated parts of a one-line dict builds the same
      mapping as the pairs, read left to right. */
  lemma {:induction false} InlineDictOfPairs(ps: seq<Pair>)
    requires GoodPairs(ps)
    ensures InlineDict(PairTexts(ps)) == PairsOnto(map[], ps)
    decreases |ps|
  {
    if |ps| > 0 {
      var n := |ps| - 1;
      InlineDictSnoc(ps);
      assert GoodPairs(ps[..n]) by {
        forall i | 0 <= i < n ensures GoodPair(ps[..n][i]) {
          assert ps[..n][i] == ps[i];
        }
      }
      InlineDictOfPairs(ps[..n]);
      PairsOntoSnoc(map[], ps);
    }
  }

  /** The text of a one-line dict is a well-formed item text holding a colon and a comma, and it
      splits at its commas into the texts of its pairs. */
  lemma InlineTextShape(ps: seq<Pair>)
    requires |ps| >= 2 && GoodPairs(ps)
    ensures var t := Text.Join(PairTexts(ps), ",");
      GoodText(t) && Text.Contains(t, ":") && Text.Contains(t, ",") && Text.Split(t, ",") == PairTexts(ps)
  {
    var parts := PairTexts(ps);
    var n := |parts| - 1;
    var t := Text.Join(parts, ",");
    PairTextShape(ps[0]);
    PairTextShape(ps[n]);
    assert t == parts[0] + "," + Text.Join(parts[1..], ",");
    Text.JoinAppend(parts[..n], [parts[n]], ",");
    assert parts[..n] + [parts[n]] == parts;
    assert t[0] == parts[0][0];
    assert t[|t| - 1] == parts[n][|parts[n]| - 1];
    forall k | 0 <= k < |parts|
      ensures '\n' !in parts[k] && !Text.Contains(parts[k], [','])
    {
      PairTextShape(ps[k]);
      Text.ContainsChar(parts[k], ',');
    }
    Text.JoinCharFree(parts, ",", '\n');
    assert t[|parts[0]|] == ',';
    assert ':' in t by { assert t[|ps[0].key|] == ':'; }
    Text.ContainsChar(t, ':');
    Text.ContainsChar(t, ',');
    Text.JoinThenSplit(parts, ',');
  }

  lemma OneLineItemStep(st: ScanState, ps: seq<Pair>)
    requires ListOpen(st) && |ps| >= 2 && GoodPairs(ps)
    ensures var r := Step(st, ItemLine(Text.Join(PairTexts(ps), ",")));
      ListOpen(r) && r.fm == st.fm && r.key == st.key && Pending(r) == Pending(st) + [Dict(PairsOnto(map[], ps))]
  {
    InlineTextShape(ps);
    ItemLineEffect(st, Text.Join(PairTexts(ps), ","));
    InlineDictOfPairs(ps);
  }

  /** The first line of a multi-line dict opens the dict with its pair. */
  lemma MultiLineHeadStep(st: ScanState, p: Pair)
    requires ListOpen(st) && GoodPair(p)
    ensures var r := Step(st, ItemLine(PairText(p)));
      && ListOpen(r) && r.fm == st.fm && r.key == st.key && r.inDict
      && r.list == Pending(st) && r.dict == map[p.key := Text.StripQuotes(p.value)]
  {
    PairTextShape(p);
    Text.ContainsChar(PairText(p), ',');
    PairKeyValue(p);
    ItemLineEffect(st, PairText(p));
  }

  lemma ContLineTrim(p: Pair)
    requires GoodPair(p)
    ensures Text.Trim(ContLine(p)) == PairText(p) && Indent(ContLine(p)) == 4
  {
    var line, t := ContLine(p), PairText(p);
    PairTextShape(p);
    assert Text.AllSpace("    ") && Text.AllSpace("");
    assert line == "    " + t + "";
    Text.TrimPadded("    ", t, "");
    Text.TrimStartAfterSpaces("    ", t);
    Text.TrimKeepsFirst(t);
  }

  lemma PairTextStart(p: Pair)
    requires GoodPair(p)
    ensures !Text.StartsWith(PairText(p), "-") && !Text.StartsWith(PairText(p), "#")
  {
    PairTextShape(p);
    Text.StartsWithChar(PairText(p), '-');
    Text.StartsWithChar(PairText(p), '#');
  }

  /** How the scanner sees a continuation line: indented four columns, not a key line, not a
      dash line, not a comment, holding a colon that reads back as the pair. */
  lemma ContLineShape(p: Pair)
    requires GoodPair(p)
    ensures var line, t := ContLine(p), PairText(p);
      && Text.Trim(line) == t && Indent(line) == 4
      && !IsTopLevel(line) && !Text.StartsWith(t, "-") && !Text.StartsWith(t, "#")
      && Text.Contains(t, ":") && KeyValue(t) == (p.key, Text.StripQuotes(p.value))
  {
    ContLineTrim(p);
    PairTextStart(p);
    PairKeyValue(p);
  }

  /** A continuation line adds its pair to the open dict and changes nothing else. */
  lemma ContLineStep(st: ScanState, p: Pair)
    requires ListOpen(st) && st.inDict && GoodPair(p)
    ensures Step(st, ContLine(p)) == st.(dict := st.dict[p.key := Text.StripQuotes(p.value)])
  {
    ContLineShape(p);
    FrontmatterProps.OtherLine(st, ContLine(p));
    var r := Step(st, ContLine(p));
    assert r.fm == st.fm && r.key == st.key && r.list == st.list && r.inList == st.inList && r.inDict == st.inDict;
    assert r.dict == st.dict[p.key := Text.StripQuotes(p.value)];
  }

  lemma {:induction false} ContScan(st: ScanState, ps: seq<Pair>)
    requires ListOpen(st) && st.inDict && GoodPairs(ps)
    ensures Scan(st, ContLines(ps)) == st.(dict := PairsOnto(st.dict, ps))
    decreases |ps|
  {
    if |ps| > 0 {
      var next := st.(dict := st.dict[ps[0].key := Text.StripQuotes(ps[0].value)]);
      ContLineStep(st, ps[0]);
      ScanFirst(st, ContLines(ps));
      assert ContLines(ps)[1..] == ContLines(ps[1..]);
      assert ListOpen(next);
      ContScan(next, ps[1..]);
    }
  }

  /** A multi-line dict, first line and continuation lines, adds one dict to the list. */
  lemma MultiLineItemScan(st: ScanState, ps: seq<Pair>)
    requires ListOpen(st) && |ps| >= 1 && GoodPairs(ps)
    ensures var r := Scan(st, ItemSpecLines(MultiLine(ps)));
      ListOpen(r) && r.fm == st.fm && r.key == st.key && Pending(r) == Pending(st) + [Dict(PairsOnto(map[], ps))]
  {
    var head := Step(st, ItemLine(PairText(ps[0])));
    MultiLineHeadStep(st, ps[0]);
    ScanFirst(st, ItemSpecLines(MultiLine(ps)));
    assert ItemSpecLines(MultiLine(ps))[1..] == ContLines(ps[1..]);
    assert GoodPairs(ps[1..]) by {
      forall i | 0 <= i < |ps[1..]| ensures GoodPair(ps[1..][i]) {
        assert ps[1..][i] == ps[i + 1];
      }
    }
    ContScan(head, ps[1..]);
    assert head.dict == map[][ps[0].key := Text.StripQuotes(ps[0].value)];
    PairsOntoKeeps(head.dict, ps[1..], ps[0].key);
  }

  /** Each item adds its value to the open list. */
  lemma ItemSpecScan(st: ScanState, it: ItemSpec)
    requires ListOpen(st) && GoodItem(it)
    ensures var r := Scan(st, ItemSpecLines(it));
      ListOpen(r) && r.fm == st.fm && r.key == st.key && Pending(r) == Pending(st) + [ItemValue(it)]
  {
    match it
    case Plain(t) =>
      ScanOne(st, ItemLine(t));
      PlainItemStep(st, t);
    case OneLine(ps) =>
      ScanOne(st, ItemLine(Text.Join(PairTexts(ps), ",")));
      OneLineItemStep(st, ps);
    case MultiLine(ps) =>
      MultiLineItemScan(st, ps);
  }

  lemma ValuesFirst(pending: seq<Item>, items: seq<ItemSpec>)
    requires |items| > 0
    ensures (pending + [ItemValue(items[0])]) + Values(items[1..]) == pending + Values(items)
  {
    assert Values(items) == [ItemValue(items[0])] + Values(items[1..]);
  }

  /** The item lines of a list add their values to the open list, in order. */
  lemma {:induction false} ItemsScan(st: ScanState, items: seq<ItemSpec>)
    requires ListOpen(st) && GoodItems(items)
    ensures var r := Scan(st, ItemLines(items));
      ListOpen(r) && r.fm == st.fm && r.key == st.key && Pending(r) == Pending(st) + Values(items)
    decreases |items|
  {
    if |items| == 0 {
      assert Values(items) == [];
      assert Pending(st) + [] == Pending(st);
    } else {
      var rest := items[1..];
      var mid := Scan(st, ItemSpecLines(items[0]));
      assert GoodItem(items[0]);
      assert GoodItems(rest) by {
        forall i | 0 <= i < |rest| ensures GoodItem(rest[i]) {
          assert rest[i] == items[i + 1];
        }
      }
      assert ItemLines(items) == ItemSpecLines(items[0]) + ItemLines(rest);
      ScanAppend(st, ItemSpecLines(items[0]), ItemLines(rest));
      ItemSpecScan(st, items[0]);
      ItemsScan(mid, rest);
      ValuesFirst(Pending(st), items);
    }
  }

  lemma MapOverride<K, V>(m: map<K, V>, k: K, v: V, w: V)
    ensures m[k := v][k := w] == m[k := w]
  {
  }

  lemma ListEntryLines(st: ScanState, k: string, items: seq<ItemSpec>)
    ensures Scan(st, EntryLines(ListEntry(k, items))) == Scan(Step(st, k + ":"), ItemLines(items))
  {
    assert EntryLines(ListEntry(k, items)) == [k + ":"] + ItemLines(items);
    ScanAppend(st, [k + ":"], ItemLines(items));
    ScanOne(st, k + ":");
  }

  /** Finishing with a list open stores it, open dict included, under its key. */
  lemma FinishOpen(st: ScanState)
    requires ListOpen(st)
    ensures Finish(st) == st.fm[st.key := List(Pending(st))]
  {
  }

  lemma ListEntryScan(st: ScanState, k: string, items: seq<ItemSpec>)
    requires Settled(st) && GoodEntry(ListEntry(k, items))
    ensures var r := Scan(st, EntryLines(ListEntry(k, items)));
      Settled(r) && Finish(r) == Finish(st)[k := List(Values(items))]
  {
    var header := Step(st, k + ":");
    HeaderLineStep(st, k);
    ListEntryLines(st, k, items);
    ItemsScan(header, items);
    var r := Scan(header, ItemLines(items));
    var vs := Values(items);
    assert Pending(r) == vs by {
      assert Pending(r) == Pending(header) + vs;
      assert [] + vs == vs;
    }
    FinishOpen(header);
    FinishOpen(r);
    assert Finish(r) == header.fm[k := List(vs)];
    MapOverride(header.fm, k, List([]), List(vs));
    assert Finish(r) == Finish(header)[k := List(vs)];
    MapOverride(Finish(st), k, List([]), List(vs));
  }

  lemma EntryScan(st: ScanState, e: Entry)
    requires Settled(st) && GoodEntry(e)
    ensures var r := Scan(st, EntryLines(e));
      Settled(r) && Finish(r) == Finish(st)[e.key := EntryValue(e)]
  {
    match e
    case ScalarEntry(k, v) =>
      ScalarLineStep(st, k, v);
      ScanOne(st, k + ": " + v);
    case ListEntry(k, items) =>
      ListEntryScan(st, k, items);
  }

  lemma {:induction false} LinesScan(st: ScanState, entries: seq<Entry>)
    requires Settled(st)
    requires forall i :: 0 <= i < |entries| ==> GoodEntry(entries[i])
    ensures Finish(Scan(st, Lines(entries))) == Expected(Finish(st), entries)
    decreases |entries|
  {
    if |entries| > 0 {
      var e := entries[0];
      var rest := entries[1..];
      assert Lines(entries) == EntryLines(e) + Lines(rest);
      ScanAppend(st, EntryLines(e), Lines(rest));
      EntryScan(st, e);
      var mid := Scan(st, EntryLines(e));
      assert forall i :: 0 <= i < |rest| ==> GoodEntry(rest[i]) by {
        forall i | 0 <= i < |rest| ensures GoodEntry(rest[i]) {
          assert rest[i] == entries[i + 1];
        }
      }
      LinesScan(mid, rest);
      assert Expected(Finish(st), entries) == Expected(Finish(st)[e.key := EntryValue(e)], rest);
    } else {
      assert Lines(entries) == [];
    }
  }

  predicate NoBreaks(lines: seq<string>) {
    forall j :: 0 <= j < |lines| ==> '\n' !in lines[j]
  }

  lemma NoBreaksAppend(a: seq<string>, b: seq<string>)
    requires NoBreaks(a) && NoBreaks(b)
    ensures NoBreaks(a + b)
  {
    forall j | 0 <= j < |a + b| ensures '\n' !in (a + b)[j] {
      if j >= |a| {
        assert (a + b)[j] == b[j - |a|];
      }
    }
  }

  lemma ItemSpecNoBreaks(it: ItemSpec)
    requires GoodItem(it)
    ensures NoBreaks(ItemSpecLines(it))
  {
    match it
    case Plain(t) =>
    case OneLine(ps) =>
      InlineTextShape(ps);
    case MultiLine(ps) =>
      PairTextShape(ps[0]);
      forall j | 0 <= j < |ps[1..]| ensures '\n' !in ContLines(ps[1..])[j] {
        assert ps[1..][j] == ps[j + 1];
        PairTextShape(ps[j + 1]);
      }
      NoBreaksAppend([ItemLine(PairText(ps[0]))], ContLines(ps[1..]));
  }

  lemma {:induction false} ItemsNoBreaks(items: seq<ItemSpec>)
    requires GoodItems(items)
    ensures NoBreaks(ItemLines(items))
    decreases |items|
  {
    if |items| > 0 {
      assert GoodItem(items[0]);
      assert GoodItems(items[1..]) by {
        forall i | 0 <= i < |items[1..]| ensures GoodItem(items[1..][i]) {
          assert items[1..][i] == items[i + 1];
        }
      }
      ItemSpecNoBreaks(items[0]);
      ItemsNoBreaks(items[1..]);
      NoBreaksAppend(ItemSpecLines(items[0]), ItemLines(items[1..]));
    }
  }

  lemma EntryNoBreaks(e: Entry)
    requires GoodEntry(e)
    ensures NoBreaks(EntryLines(e))
  {
    match e
    case ScalarEntry(k, v) =>
    case ListEntry(k, items) =>
      ItemsNoBreaks(items);
      NoBreaksAppend([k + ":"], ItemLines(items));
  }

  lemma {:induction false} LinesHaveNoNewline(entries: seq<Entry>)
    requires forall i :: 0 <= i < |entries| ==> GoodEntry(entries[i])
    ensures NoBreaks(Lines(entries))
    decreases |entries|
  {
    if |entries| > 0 {
      LinesHaveNoNewline(entries[1..]);
      EntryNoBreaks(entries[0]);
      NoBreaksAppend(EntryLines(entries[0]), Lines(entries[1..]));
    }
  }

  lemma BlankLineScan(st: ScanState)
    ensures Scan(st, [""]) == st
  {
    assert Text.AllSpace("");
    FrontmatterProps.SkippedLine(st, "");
  }

  /** Pieces without a line break, joined at line breaks, split back into the pieces. */
  lemma SplitJoinedLines(parts: seq<string>)
    requires |parts| >= 1 && NoBreaks(parts)
    ensures Text.Split(Text.Join(parts, "\n"), "\n") == parts
  {
    forall j | 0 <= j < |parts|
      ensures !Text.Contains(parts[j], ['\n'])
    {
      Text.ContainsChar(parts[j], '\n');
    }
    Text.JoinThenSplit(parts, '\n');
  }

  /** The region of well-formed entries splits at line breaks into its lines, between two empty
      lines. */
  lemma RegionLines(entries: seq<Entry>)
    requires forall i :: 0 <= i < |entries| ==> GoodEntry(entries[i])
    ensures Text.Split(Region(entries), "\n") == [""] + Lines(entries) + [""]
  {
    LinesHaveNoNewline(entries);
    NoBreaksAppend([""], Lines(entries));
    NoBreaksAppend([""] + Lines(entries), [""]);
    SplitJoinedLines([""] + Lines(entries) + [""]);
  }

  /** The lines of well-formed entries, between two empty lines, scan to the mapping the entries
      describe. */
  lemma ScanRegionLines(entries: seq<Entry>)
    requires forall i :: 0 <= i < |entries| ==> GoodEntry(entries[i])
    ensures Finish(Scan(Start, [""] + Lines(entries) + [""])) == Expected(map[], entries)
  {
    var lines := Lines(entries);
    ScanAppend(Start, [""] + lines, [""]);
    ScanAppend(Start, [""], lines);
    BlankLineScan(Start);
    assert Settled(Start);
    LinesScan(Start, entries);
    BlankLineScan(Scan(Start, lines));
  }

  /** The round trip: the region written from well-formed entries, scalars, lists of scalars and
      lists of dicts in either layout, parses back to the mapping the entries describe. */
  lemma ParseRegion(entries: seq<Entry>)
    requires forall i :: 0 <= i < |entries| ==> GoodEntry(entries[i])
    ensures ParseMetadata(Region(entries)) == Expected(map[], entries)
  {
    RegionLines(entries);
    ScanRegionLines(entries);
  }
}
