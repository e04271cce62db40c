/** The accessibility audit: seven checks on what the page parser found, each raising one issue
    that cites a WCAG success criterion and costs the score a capped deduction. */
module A11y {
  import opened Wrappers
  import opened HtmlTypes

  /** What an issue of type `kind` costs the score of a page with `info`. */
  function Penalty(kind: A11yIssueType, info: A11yInfo): nat {
    match kind
    case MissingLang => 15
    case MissingSkipLink => 10
    case MissingMainLandmark => 10
    case EmptyLink => Min(20, info.emptyLinks * 5)
    case EmptyButton => Min(20, info.emptyButtons * 5)
    case FocusableHidden => Min(15, info.focusableHidden * 5)
    case PositiveTabindex => Min(10, info.positiveTabindex * 2)
  }

  /** The deductions of all `issues`, added up. */
  function TotalPenalty(issues: seq<A11yIssue>, info: A11yInfo): nat {
    if |issues| == 0 then 0 else TotalPenalty(issues[..|issues| - 1], info) + Penalty(issues[|issues| - 1].kind, info)
  }

  lemma {:induction false} TotalPenaltyAppend(a: seq<A11yIssue>, b: seq<A11yIssue>, info: A11yInfo)
    ensures TotalPenalty(a + b, info) == TotalPenalty(a, info) + TotalPenalty(b, info)
    decreases |b|
  {
    if |b| == 0 {
      assert a + b == a;
    } else {
      var c := b[..|b| - 1];
      assert (a + b)[..|a + b| - 1] == a + c;
      assert (a + b)[|a + b| - 1] == b[|b| - 1];
      TotalPenaltyAppend(a, c, info);
    }
  }

  /** The issues of the three structural checks: language, skip link, main landmark. */
  function StructureIssues(info: A11yInfo): (r: seq<A11yIssue>)
    ensures Issue(Error, MissingLang, "3.1.1") in r <==> !Present(info.lang)
    ensures Issue(Warning, MissingSkipLink, "2.4.1") in r <==> !info.hasSkipLink
    ensures Issue(Warning, MissingMainLandmark, "1.3.1") in r <==> !info.landmarks.main
    ensures forall x :: x in r ==> x.kind in {MissingLang, MissingSkipLink, MissingMainLandmark}
    ensures forall x :: x in r ==> Penalty(x.kind, info) > 0
    ensures |r| <= 3
  {
    Flag(!Present(info.lang), Issue(Error, MissingLang, "3.1.1"))
    + Flag(!info.hasSkipLink, Issue(Warning, MissingSkipLink, "2.4.1"))
    + Flag(!info.landmarks.main, Issue(Warning, MissingMainLandmark, "1.3.1"))
  }

  /** The issues of the four count checks: empty links, empty buttons, focusable elements inside
      aria-hidden, positive tabindex. */
  function CountIssues(info: A11yInfo): (r: seq<A11yIssue>)
    ensures Issue(Error, EmptyLink, "2.4.4") in r <==> info.emptyLinks > 0
    ensures Issue(Error, EmptyButton, "4.1.2") in r <==> info.emptyButtons > 0
    ensures Issue(Error, FocusableHidden, "4.1.2") in r <==> info.focusableHidden > 0
    ensures Issue(Warning, PositiveTabindex, "2.4.3") in r <==> info.positiveTabindex > 0
    ensures forall x :: x in r ==> x.kind in {EmptyLink, EmptyButton, FocusableHidden, PositiveTabindex}
    ensures forall x :: x in r ==> Penalty(x.kind, info) > 0
    ensures |r| <= 4
  {
    Flag(info.emptyLinks > 0, Issue(Error, EmptyLink, "2.4.4"))
    + Flag(info.emptyButtons > 0, Issue(Error, EmptyButton, "4.1.2"))
    + Flag(info.focusableHidden > 0, Issue(Error, FocusableHidden, "4.1.2"))
    + Flag(info.positiveTabindex > 0, Issue(Warning, PositiveTabindex, "2.4.3"))
  }

  /** The issues of a page, in the order the checks run. */
  function A11yIssues(info: A11yInfo): seq<A11yIssue> {
    StructureIssues(info) + CountIssues(info)
  }

  /** The running score after the structural checks. */
  function StructureScore(info: A11yInfo): int {
    var s1 := Deduct(100, !Present(info.lang), 15);
    var s2 := Deduct(s1, !info.hasSkipLink, 10);
    Deduct(s2, !info.landmarks.main, 10)
  }

  /** The running score `score` after the count checks. */
  function CountScore(score: int, info: A11yInfo): int {
    var s4 := Deduct(score, info.emptyLinks > 0, Min(20, info.emptyLinks * 5));
    var s5 := Deduct(s4, info.emptyButtons > 0, Min(20, info.emptyButtons * 5));
    var s6 := Deduct(s5, info.focusableHidden > 0, Min(15, info.focusableHidden * 5));
    Deduct(s6, info.positiveTabindex > 0, Min(10, info.positiveTabindex * 2))
  }

  /** The score as the audit computes it: 100, less each failing check's deduction in turn,
      clamped at 0. */
  function Score(info: A11yInfo): int {
    var s := CountScore(StructureScore(info), info);
    if s < 0 then 0 else s
  }

  /** One check keeps the running score equal to `base` less the deductions of the issues so far. */
  lemma CheckStep(base: int, issues: seq<A11yIssue>, score: int, fails: bool, issue: A11yIssue, amount: int, info: A11yInfo)
    requires score == base - TotalPenalty(issues, info)
    requires amount == Penalty(issue.kind, info)
    ensures Deduct(score, fails, amount) == base - TotalPenalty(issues + Flag(fails, issue), info)
  {
    TotalPenaltyAppend(issues, Flag(fails, issue), info);
    if fails {
      assert Flag(fails, issue)[..0] == [];
    }
  }

  lemma StructureScoreIsPenalties(info: A11yInfo)
    ensures StructureScore(info) == 100 - TotalPenalty(StructureIssues(info), info)
    ensures TotalPenalty(StructureIssues(info), info) <= 35
  {
    var i1 := Issue(Error, MissingLang, "3.1.1");
    var i2 := Issue(Warning, MissingSkipLink, "2.4.1");
    var i3 := Issue(Warning, MissingMainLandmark, "1.3.1");
    var p0: seq<A11yIssue> := [];
    var p1 := p0 + Flag(!Present(info.lang), i1);
    var p2 := p1 + Flag(!info.hasSkipLink, i2);
    var s1 := Deduct(100, !Present(info.lang), 15);
    var s2 := Deduct(s1, !info.hasSkipLink, 10);
    CheckStep(100, p0, 100, !Present(info.lang), i1, 15, info);
    CheckStep(100, p1, s1, !info.hasSkipLink, i2, 10, info);
    CheckStep(100, p2, s2, !info.landmarks.main, i3, 10, info);
    assert p0 + Flag(!Present(info.lang), i1) == Flag(!Present(info.lang), i1);
  }

  lemma CountScoreIsPenalties(score: int, info: A11yInfo)
    ensures CountScore(score, info) == score - TotalPenalty(CountIssues(info), info)
    ensures TotalPenalty(CountIssues(info), info) <= 65
  {
    var i4 := Issue(Error, EmptyLink, "2.4.4");
    var i5 := Issue(Error, EmptyButton, "4.1.2");
    var i6 := Issue(Error, FocusableHidden, "4.1.2");
    var i7 := Issue(Warning, PositiveTabindex, "2.4.3");
    var p3: seq<A11yIssue> := [];
    var p4 := p3 + Flag(info.emptyLinks > 0, i4);
    var p5 := p4 + Flag(info.emptyButtons > 0, i5);
    var p6 := p5 + Flag(info.focusableHidden > 0, i6);
    var s4 := Deduct(score, info.emptyLinks > 0, Min(20, info.emptyLinks * 5));
    var s5 := Deduct(s4, info.emptyButtons > 0, Min(20, info.emptyButtons * 5));
    var s6 := Deduct(s5, info.focusableHidden > 0, Min(15, info.focusableHidden * 5));
    CheckStep(score, p3, score, info.emptyLinks > 0, i4, Min(20, info.emptyLinks * 5), info);
    CheckStep(score, p4, s4, info.emptyButtons > 0, i5, Min(20, info.emptyButtons * 5), info);
    CheckStep(score, p5, s5, info.focusableHidden > 0, i6, Min(15, info.focusableHidden * 5), info);
    CheckStep(score, p6, s6, info.positiveTabindex > 0, i7, Min(10, info.positiveTabindex * 2), info);
    assert p3 + Flag(info.emptyLinks > 0, i4) == Flag(info.emptyLinks > 0, i4);
  }

  /** The score is 100 less the deductions of the issues raised; the caps keep the total within
      100, so the clamp at 0 never applies. */
  lemma ScoreIsPenalties(info: A11yInfo)
    ensures Score(info) == 100 - TotalPenalty(A11yIssues(info), info)
    ensures TotalPenalty(A11yIssues(info), info) <= 100
  {
    StructureScoreIsPenalties(info);
    CountScoreIsPenalties(StructureScore(info), info);
    TotalPenaltyAppend(StructureIssues(info), CountIssues(info), info);
  }

  /** Every issue costs the score something. */
  lemma {:induction false} PenaltiesPositive(issues: seq<A11yIssue>, info: A11yInfo)
    requires forall x :: x in issues ==> Penalty(x.kind, info) > 0
    ensures TotalPenalty(issues, info) == 0 <==> issues == []
  {
    if |issues| > 0 {
      assert issues[|issues| - 1] in issues;
    }
  }

  /** The accessibility analysis of a page. The score lies in [0, 100] and is 100 less the
      deductions of the issues raised; it is 100 exactly when no issue is raised. Each count-based
      check fails exactly when its count is positive, and a missing or empty `lang` is an error
      citing WCAG 3.1.1. */
  function AnalyzeA11y(url: string, info: A11yInfo): (r: A11yAnalysis)
    ensures r.url == url && r.info == info
    ensures 0 <= r.score <= 100
    ensures r.score == 100 - TotalPenalty(r.issues, info)
    ensures r.score == 100 <==> r.issues == []
    ensures Issue(Error, MissingLang, "3.1.1") in r.issues <==> !Present(info.lang)
    ensures Issue(Warning, MissingSkipLink, "2.4.1") in r.issues <==> !info.hasSkipLink
    ensures Issue(Warning, MissingMainLandmark, "1.3.1") in r.issues <==> !info.landmarks.main
    ensures Issue(Error, EmptyLink, "2.4.4") in r.issues <==> info.emptyLinks > 0
    ensures Issue(Error, EmptyButton, "4.1.2") in r.issues <==> info.emptyButtons > 0
    ensures Issue(Error, FocusableHidden, "4.1.2") in r.issues <==> info.focusableHidden > 0
    ensures Issue(Warning, PositiveTabindex, "2.4.3") in r.issues <==> info.positiveTabindex > 0
    ensures |r.issues| <= 7
  {
    ScoreIsPenalties(info);
    PenaltiesPositive(A11yIssues(info), info);
    A11yAnalysis(url, info, A11yIssues(info), Score(info))
  }
}
