/** The heading analyzer: how many headings each level has, a missing or repeated H1, empty
    headings, and headings that skip a level. */
module Headings {
  import opened Wrappers
  import opened HtmlTypes

  function AtLevel(level: int): HeadingInfo -> bool {
    (h: HeadingInfo) => h.level == level
  }

  /** The number of headings at `level`. */
  function LevelCount(hs: seq<HeadingInfo>, level: int): nat {
    Count(hs, AtLevel(level))
  }

  predicate IsEmptyHeading(h: HeadingInfo) {
    h.empty
  }

  /** Heading `i` skips a level: it follows a heading of positive level and is more than one
      level deeper than it. The first heading never does. */
  predicate SkipsAt(hs: seq<HeadingInfo>, i: nat)
    requires i < |hs|
  {
    i > 0 && hs[i - 1].level > 0 && hs[i].level > hs[i - 1].level + 1
  }

  /** The H1 issues for a page with `count1` level-one headings: one for none, one for several. */
  function H1Issues(count1: nat): (r: seq<HeadingIssue>)
    ensures KindCount(r, MissingH1) == (if count1 == 0 then 1 else 0)
    ensures KindCount(r, MultipleH1) == (if count1 > 1 then 1 else 0)
    ensures KindCount(r, EmptyHeading) == 0 && KindCount(r, SkippedLevel) == 0
    ensures |r| <= 1
    ensures forall x :: x in r ==> x.kind == MissingH1 || x.kind == MultipleH1
  {
    (if count1 == 0 then [Issue(Error, MissingH1, None)] else [])
    + (if count1 > 1 then [Issue(Warning, MultipleH1, None)] else [])
  }

  /** One empty-heading issue per empty heading, in page order. */
  function EmptyIssues(hs: seq<HeadingInfo>): (r: seq<HeadingIssue>)
    ensures KindCount(r, EmptyHeading) == Count(hs, IsEmptyHeading) == |r|
    ensures forall k :: k != EmptyHeading ==> KindCount(r, k) == 0
    ensures forall x :: x in r ==> x.subject.Some? && x.subject.value in hs && x.subject.value.empty && x.kind == EmptyHeading
  {
    if |hs| == 0 then []
    else
      var front := hs[..|hs| - 1];
      var h := hs[|hs| - 1];
      var r := EmptyIssues(front) + (if h.empty then [Issue(Error, EmptyHeading, Some(h))] else []);
      KindCountsAppend(EmptyIssues(front), if h.empty then [Issue(Error, EmptyHeading, Some(h))] else []);
      assert forall x :: x in front ==> x in hs;
      r
  }

  /** One skipped-level issue per heading that skips a level, in page order. */
  function SkipIssues(hs: seq<HeadingInfo>): (r: seq<HeadingIssue>)
    ensures forall k :: k != SkippedLevel ==> KindCount(r, k) == 0
    ensures forall i :: 0 <= i < |hs| && SkipsAt(hs, i) ==> Issue(Warning, SkippedLevel, Some(hs[i])) in r
    ensures forall x :: x in r ==> exists i :: 0 <= i < |hs| && SkipsAt(hs, i) && x == Issue(Warning, SkippedLevel, Some(hs[i]))
  {
    if |hs| == 0 then []
    else
      var front := hs[..|hs| - 1];
      var last := if SkipsAt(hs, |hs| - 1) then [Issue(Warning, SkippedLevel, Some(hs[|hs| - 1]))] else [];
      KindCountsAppend(SkipIssues(front), last);
      assert forall i :: 0 <= i < |front| ==> (SkipsAt(front, i) <==> SkipsAt(hs, i));
      SkipIssues(front) + last
  }

  /** The per-level counts: levels 1 to 6 are always present, any other level once it occurs. */
  method CountLevels(headings: seq<HeadingInfo>) returns (counts: map<int, nat>)
    ensures forall l :: l in counts <==> (1 <= l <= 6 || LevelCount(headings, l) > 0)
    ensures forall l :: l in counts ==> counts[l] == LevelCount(headings, l)
  {
    counts := map[1 := 0, 2 := 0, 3 := 0, 4 := 0, 5 := 0, 6 := 0];
    var i := 0;
    while i < |headings|
      invariant 0 <= i <= |headings|
      invariant forall l :: l in counts <==> (1 <= l <= 6 || LevelCount(headings[..i], l) > 0)
      invariant forall l :: l in counts ==> counts[l] == LevelCount(headings[..i], l)
    {
      var h := headings[i];
      counts := counts[h.level := (if h.level in counts then counts[h.level] else 0) + 1];
      assert headings[..i + 1][..i] == headings[..i];
      i := i + 1;
    }
    assert headings[..i] == headings;
  }

  method EmptyHeadingIssues(headings: seq<HeadingInfo>) returns (issues: seq<HeadingIssue>)
    ensures issues == EmptyIssues(headings)
  {
    issues := [];
    var i := 0;
    while i < |headings|
      invariant 0 <= i <= |headings|
      invariant issues == EmptyIssues(headings[..i])
    {
      assert headings[..i + 1][..i] == headings[..i];
      if headings[i].empty {
        issues := issues + [Issue(Error, EmptyHeading, Some(headings[i]))];
      }
      i := i + 1;
    }
    assert headings[..i] == headings;
  }

  /** The skipped-level pass threads the previous heading's level, starting from 0. */
  method SkippedLevelIssues(headings: seq<HeadingInfo>) returns (issues: seq<HeadingIssue>)
    ensures issues == SkipIssues(headings)
  {
    issues := [];
    var previousLevel := 0;
    var i := 0;
    while i < |headings|
      invariant 0 <= i <= |headings|
      invariant previousLevel == if i == 0 then 0 else headings[i - 1].level
      invariant issues == SkipIssues(headings[..i])
    {
      var h := headings[i];
      assert headings[..i + 1][..i] == headings[..i];
      if previousLevel > 0 && h.level > previousLevel + 1 {
        issues := issues + [Issue(Warning, SkippedLevel, Some(h))];
      }
      previousLevel := h.level;
      i := i + 1;
    }
    assert headings[..i] == headings;
  }

  /** The issues of a page, in the order the analyzer reports them. */
  function PageIssues(headings: seq<HeadingInfo>): seq<HeadingIssue> {
    H1Issues(LevelCount(headings, 1)) + EmptyIssues(headings) + SkipIssues(headings)
  }

  /** A page gets the missing-H1 issue exactly when it has no H1, the multiple-H1 issue exactly
      when it has more than one, never both, and one empty-heading issue per empty heading. */
  lemma PageIssueCounts(headings: seq<HeadingInfo>)
    ensures KindCount(PageIssues(headings), MissingH1) > 0 <==> LevelCount(headings, 1) == 0
    ensures KindCount(PageIssues(headings), MultipleH1) > 0 <==> LevelCount(headings, 1) > 1
    ensures KindCount(PageIssues(headings), MissingH1) + KindCount(PageIssues(headings), MultipleH1) <= 1
    ensures KindCount(PageIssues(headings), EmptyHeading) == Count(headings, IsEmptyHeading)
  {
    var c := LevelCount(headings, 1);
    PageKindCount(headings, MissingH1);
    PageKindCount(headings, MultipleH1);
    PageKindCount(headings, EmptyHeading);
    assert KindCount(EmptyIssues(headings), MissingH1) == 0;
    assert KindCount(EmptyIssues(headings), MultipleH1) == 0;
    assert KindCount(SkipIssues(headings), MissingH1) == 0;
    assert KindCount(SkipIssues(headings), MultipleH1) == 0;
    assert KindCount(SkipIssues(headings), EmptyHeading) == 0;
  }

  /** The issues of one type on a page are those of its H1 check, its empty headings and its
      skipped levels together. */
  lemma PageKindCount(headings: seq<HeadingInfo>, k: HeadingIssueType)
    ensures KindCount(PageIssues(headings), k) ==
      KindCount(H1Issues(LevelCount(headings, 1)), k) + KindCount(EmptyIssues(headings), k) + KindCount(SkipIssues(headings), k)
  {
    var h1 := H1Issues(LevelCount(headings, 1));
    var empty := EmptyIssues(headings);
    KindCountAppend(h1, empty, k);
    KindCountAppend(h1 + empty, SkipIssues(headings), k);
  }

  /** The skipped-level issues of a page all come from the skipped-level pass. */
  lemma PageSkipIssues(headings: seq<HeadingInfo>)
    ensures forall x :: x in PageIssues(headings) && x.kind == SkippedLevel ==> x in SkipIssues(headings)
  {
    SkipIssuesOnly(H1Issues(LevelCount(headings, 1)), EmptyIssues(headings), SkipIssues(headings));
  }

  /** The heading analysis of a page: per-level counts, then the H1 issues, the empty headings and
      the skipped levels. */
  method AnalyzeHeadings(url: string, headings: seq<HeadingInfo>) returns (r: HeadingAnalysis)
    ensures r.url == url && r.headings == headings
    ensures forall l :: l in r.counts <==> (1 <= l <= 6 || LevelCount(headings, l) > 0)
    ensures forall l :: l in r.counts ==> r.counts[l] == LevelCount(headings, l)
    ensures r.issues == PageIssues(headings)
    ensures KindCount(r.issues, MissingH1) > 0 <==> LevelCount(headings, 1) == 0
    ensures KindCount(r.issues, MultipleH1) > 0 <==> LevelCount(headings, 1) > 1
    ensures KindCount(r.issues, EmptyHeading) == Count(headings, IsEmptyHeading)
    ensures forall i :: 0 <= i < |headings| && SkipsAt(headings, i) ==>
      Issue(Warning, SkippedLevel, Some(headings[i])) in r.issues
    ensures forall x :: x in r.issues && x.kind == SkippedLevel ==>
      exists i :: 0 <= i < |headings| && SkipsAt(headings, i) && x.subject == Some(headings[i])
  {
    var counts := CountLevels(headings);
    var issues: seq<HeadingIssue> := [];
    if counts[1] == 0 {
      issues := issues + [Issue(Error, MissingH1, None)];
    }
    if counts[1] > 1 {
      issues := issues + [Issue(Warning, MultipleH1, None)];
    }
    var empty := EmptyHeadingIssues(headings);
    var skipped := SkippedLevelIssues(headings);
    issues := issues + empty + skipped;
    r := HeadingAnalysis(url, headings, issues, counts);
    assert r.issues == PageIssues(headings);
    PageIssueCounts(headings);
    PageSkipIssues(headings);
  }

  /** The skipped-level issues of a page are those of its skipped-level pass. */
  lemma SkipIssuesOnly(h1: seq<HeadingIssue>, empty: seq<HeadingIssue>, skipped: seq<HeadingIssue>)
    requires forall x :: x in h1 ==> x.kind == MissingH1 || x.kind == MultipleH1
    requires forall x :: x in empty ==> x.kind == EmptyHeading
    ensures forall x :: x in h1 + empty + skipped && x.kind == SkippedLevel ==> x in skipped
  {
  }
}
