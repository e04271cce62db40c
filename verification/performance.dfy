/** The performance audit: six checks on the resources the page parser found (render-blocking
    stylesheets and scripts, synchronous third-party scripts, images and iframes loaded eagerly,
    images without dimensions), each raising one issue and costing the score a capped deduction. */
module Performance {
  import opened HtmlTypes

  /** The most eagerly loaded images a page may have before the audit flags them. */
  const EagerImageAllowance := 5

  predicate IsRenderBlocking(res: ResourceInfo) {
    res.renderBlocking
  }

  predicate IsSyncThirdParty(res: ResourceInfo) {
    res.isThirdParty && res.renderBlocking
  }

  predicate IsEager(res: ResourceInfo) {
    !res.hasLazy
  }

  predicate LacksDimensions(res: ResourceInfo) {
    !res.hasDimensions
  }

  /** The issue each check raises, carrying the number of resources it found. */
  function BlockingCssIssue(info: PerformanceInfo): PerformanceIssue {
    Issue(Warning, RenderBlockingCss, PerfSubject(High, Stylesheets, Count(info.stylesheets, IsRenderBlocking)))
  }

  function BlockingJsIssue(info: PerformanceInfo): PerformanceIssue {
    Issue(Warning, RenderBlockingJs, PerfSubject(High, Scripts, Count(info.scripts, IsRenderBlocking)))
  }

  function SyncThirdPartyIssue(info: PerformanceInfo): PerformanceIssue {
    Issue(Error, SyncThirdParty, PerfSubject(High, Scripts, Count(info.scripts, IsSyncThirdParty)))
  }

  function EagerImagesIssue(info: PerformanceInfo): PerformanceIssue {
    Issue(Info, NoLazyLoading, PerfSubject(Medium, Images, Count(info.images, IsEager)))
  }

  function DimensionsIssue(info: PerformanceInfo): PerformanceIssue {
    Issue(Warning, MissingDimensionsPerf, PerfSubject(Medium, Images, Count(info.images, LacksDimensions)))
  }

  function EagerIframesIssue(info: PerformanceInfo): PerformanceIssue {
    Issue(Info, NoLazyLoading, PerfSubject(Medium, Iframes, Count(info.iframes, IsEager)))
  }

  /** What an issue costs the score, read off the issue alone: its type, the resources it is
      about and how many of them there are. */
  function Penalty(issue: PerformanceIssue): nat {
    var n := issue.subject.count;
    match issue.kind
    case RenderBlockingCss => Min(20, n * 5)
    case RenderBlockingJs => Min(20, n * 5)
    case SyncThirdParty => Min(15, n * 5)
    case NoLazyLoading => if issue.subject.resources == Iframes then Min(10, n * 3) else Min(10, n / 3)
    case MissingDimensionsPerf => Min(15, n * 2)
  }

  /** The deductions of all `issues`, added up. */
  function TotalPenalty(issues: seq<PerformanceIssue>): nat {
    if |issues| == 0 then 0 else TotalPenalty(issues[..|issues| - 1]) + Penalty(issues[|issues| - 1])
  }

  lemma {:induction false} TotalPenaltyAppend(a: seq<PerformanceIssue>, b: seq<PerformanceIssue>)
    ensures TotalPenalty(a + b) == TotalPenalty(a) + TotalPenalty(b)
    decreases |b|
  {
    if |b| == 0 {
      assert a + b == a;
    } else {
      var c := b[..|b| - 1];
      assert (a + b)[..|a + b| - 1] == a + c;
      assert (a + b)[|a + b| - 1] == b[|b| - 1];
      TotalPenaltyAppend(a, c);
    }
  }

  /** The issues of the three script and stylesheet checks, in the order they run. */
  function RenderIssues(info: PerformanceInfo): (r: seq<PerformanceIssue>)
    ensures BlockingCssIssue(info) in r <==> Count(info.stylesheets, IsRenderBlocking) > 0
    ensures BlockingJsIssue(info) in r <==> Count(info.scripts, IsRenderBlocking) > 0
    ensures SyncThirdPartyIssue(info) in r <==> Count(info.scripts, IsSyncThirdParty) > 0
    ensures forall x :: x in r ==> x == BlockingCssIssue(info) || x == BlockingJsIssue(info) || x == SyncThirdPartyIssue(info)
    ensures forall x :: x in r ==> Penalty(x) > 0
    ensures |r| <= 3
  {
    Flag(Count(info.stylesheets, IsRenderBlocking) > 0, BlockingCssIssue(info))
    + Flag(Count(info.scripts, IsRenderBlocking) > 0, BlockingJsIssue(info))
    + Flag(Count(info.scripts, IsSyncThirdParty) > 0, SyncThirdPartyIssue(info))
  }

  /** The issues of the three image and iframe checks, in the order they run. */
  function LoadingIssues(info: PerformanceInfo): (r: seq<PerformanceIssue>)
    ensures EagerImagesIssue(info) in r <==> Count(info.images, IsEager) > EagerImageAllowance
    ensures DimensionsIssue(info) in r <==> Count(info.images, LacksDimensions) > 0
    ensures EagerIframesIssue(info) in r <==> Count(info.iframes, IsEager) > 0
    ensures forall x :: x in r ==> x == EagerImagesIssue(info) || x == DimensionsIssue(info) || x == EagerIframesIssue(info)
    ensures forall x :: x in r ==> Penalty(x) > 0
    ensures |r| <= 3
  {
    Flag(Count(info.images, IsEager) > EagerImageAllowance, EagerImagesIssue(info))
    + Flag(Count(info.images, LacksDimensions) > 0, DimensionsIssue(info))
    + Flag(Count(info.iframes, IsEager) > 0, EagerIframesIssue(info))
  }

  function PerformanceIssues(info: PerformanceInfo): seq<PerformanceIssue> {
    RenderIssues(info) + LoadingIssues(info)
  }

  /** The running score after the script and stylesheet checks. */
  function RenderScore(info: PerformanceInfo): int {
    var css := Count(info.stylesheets, IsRenderBlocking);
    var js := Count(info.scripts, IsRenderBlocking);
    var sync := Count(info.scripts, IsSyncThirdParty);
    var s1 := Deduct(100, css > 0, Min(20, css * 5));
    var s2 := Deduct(s1, js > 0, Min(20, js * 5));
    Deduct(s2, sync > 0, Min(15, sync * 5))
  }

  /** The running score `score` after the image and iframe checks. */
  function LoadingScore(score: int, info: PerformanceInfo): int {
    var eager := Count(info.images, IsEager);
    var noDims := Count(info.images, LacksDimensions);
    var frames := Count(info.iframes, IsEager);
    var s4 := Deduct(score, eager > EagerImageAllowance, Min(10, eager / 3));
    var s5 := Deduct(s4, noDims > 0, Min(15, noDims * 2));
    Deduct(s5, frames > 0, Min(10, frames * 3))
  }

  /** The score as the audit computes it: 100, less each failing check's deduction in turn,
      raised to 0 if it went below. */
  function Score(info: PerformanceInfo): int {
    var s := LoadingScore(RenderScore(info), info);
    if s < 0 then 0 else s
  }

  /** One check keeps the running score equal to `base` less the deductions of the issues so far. */
  lemma CheckStep(base: int, issues: seq<PerformanceIssue>, score: int, fails: bool, issue: PerformanceIssue, amount: int)
    requires score == base - TotalPenalty(issues)
    requires amount == Penalty(issue)
    ensures Deduct(score, fails, amount) == base - TotalPenalty(issues + Flag(fails, issue))
  {
    TotalPenaltyAppend(issues, Flag(fails, issue));
    if fails {
      assert Flag(fails, issue)[..0] == [];
    }
  }

  lemma RenderScoreIsPenalties(info: PerformanceInfo)
    ensures RenderScore(info) == 100 - TotalPenalty(RenderIssues(info))
    ensures TotalPenalty(RenderIssues(info)) <= 55
  {
    var css := Count(info.stylesheets, IsRenderBlocking);
    var js := Count(info.scripts, IsRenderBlocking);
    var sync := Count(info.scripts, IsSyncThirdParty);
    var a1, a2, a3 := Min(20, css * 5), Min(20, js * 5), Min(15, sync * 5);
    assert a1 <= 20 && a2 <= 20 && a3 <= 15;
    var f1 := Flag(css > 0, BlockingCssIssue(info));
    var f2 := Flag(js > 0, BlockingJsIssue(info));
    var f3 := Flag(sync > 0, SyncThirdPartyIssue(info));
    assert RenderIssues(info) == f1 + f2 + f3;
    var p0: seq<PerformanceIssue> := [];
    assert p0 + f1 == f1;
    var s1 := Deduct(100, css > 0, a1);
    var s2 := Deduct(s1, js > 0, a2);
    CheckStep(100, p0, 100, css > 0, BlockingCssIssue(info), a1);
    CheckStep(100, f1, s1, js > 0, BlockingJsIssue(info), a2);
    CheckStep(100, f1 + f2, s2, sync > 0, SyncThirdPartyIssue(info), a3);
    assert RenderScore(info) == Deduct(s2, sync > 0, a3);
  }

  lemma LoadingScoreIsPenalties(score: int, info: PerformanceInfo)
    ensures LoadingScore(score, info) == score - TotalPenalty(LoadingIssues(info))
    ensures TotalPenalty(LoadingIssues(info)) <= 35
  {
    var eager := Count(info.images, IsEager);
    var noDims := Count(info.images, LacksDimensions);
    var frames := Count(info.iframes, IsEager);
    var a4, a5, a6 := Min(10, eager / 3), Min(15, noDims * 2), Min(10, frames * 3);
    assert a4 <= 10 && a5 <= 15 && a6 <= 10;
    var f4 := Flag(eager > EagerImageAllowance, EagerImagesIssue(info));
    var f5 := Flag(noDims > 0, DimensionsIssue(info));
    var f6 := Flag(frames > 0, EagerIframesIssue(info));
    assert LoadingIssues(info) == f4 + f5 + f6;
    var p3: seq<PerformanceIssue> := [];
    assert p3 + f4 == f4;
    var s4 := Deduct(score, eager > EagerImageAllowance, a4);
    var s5 := Deduct(s4, noDims > 0, a5);
    CheckStep(score, p3, score, eager > EagerImageAllowance, EagerImagesIssue(info), a4);
    CheckStep(score, f4, s4, noDims > 0, DimensionsIssue(info), a5);
    CheckStep(score, f4 + f5, s5, frames > 0, EagerIframesIssue(info), a6);
    assert LoadingScore(score, info) == Deduct(s5, frames > 0, a6);
  }

  /** The score is 100 less the deductions of the issues raised; the caps add up to 90, so the
      score never falls below 10 and the raise to 0 never applies. */
  lemma ScoreIsPenalties(info: PerformanceInfo)
    ensures Score(info) == 100 - TotalPenalty(PerformanceIssues(info))
    ensures TotalPenalty(PerformanceIssues(info)) <= 90
  {
    RenderScoreIsPenalties(info);
    LoadingScoreIsPenalties(RenderScore(info), info);
    TotalPenaltyAppend(RenderIssues(info), LoadingIssues(info));
  }

  /** Every issue costs the score something. */
  lemma {:induction false} PenaltiesPositive(issues: seq<PerformanceIssue>)
    requires forall x :: x in issues ==> Penalty(x) > 0
    ensures TotalPenalty(issues) == 0 <==> issues == []
  {
    if |issues| > 0 {
      assert issues[|issues| - 1] in issues;
    }
  }

  /** A synchronous third-party script is render-blocking, so there are never more of them than
      render-blocking scripts. */
  lemma SyncScriptsBlock(info: PerformanceInfo)
    ensures Count(info.scripts, IsSyncThirdParty) <= Count(info.scripts, IsRenderBlocking)
  {
    CountImplies(info.scripts, IsSyncThirdParty, IsRenderBlocking);
  }

  /** Which issues a page raises: each check's issue exactly when its count passes the check's
      threshold, and nothing else. */
  lemma IssuesRaised(info: PerformanceInfo)
    ensures BlockingCssIssue(info) in PerformanceIssues(info) <==> Count(info.stylesheets, IsRenderBlocking) > 0
    ensures BlockingJsIssue(info) in PerformanceIssues(info) <==> Count(info.scripts, IsRenderBlocking) > 0
    ensures SyncThirdPartyIssue(info) in PerformanceIssues(info) <==> Count(info.scripts, IsSyncThirdParty) > 0
    ensures EagerImagesIssue(info) in PerformanceIssues(info) <==> Count(info.images, IsEager) > EagerImageAllowance
    ensures DimensionsIssue(info) in PerformanceIssues(info) <==> Count(info.images, LacksDimensions) > 0
    ensures EagerIframesIssue(info) in PerformanceIssues(info) <==> Count(info.iframes, IsEager) > 0
    ensures |PerformanceIssues(info)| <= 6
  {
    var render := RenderIssues(info);
    var loading := LoadingIssues(info);
    assert BlockingCssIssue(info) !in loading;
    assert BlockingJsIssue(info) !in loading;
    assert SyncThirdPartyIssue(info) !in loading;
    assert EagerImagesIssue(info) !in render;
    assert DimensionsIssue(info) !in render;
    assert EagerIframesIssue(info) !in render;
  }

  /** The performance analysis of a page. Each check raises its issue, carrying the number of
      resources it found, exactly when that number is positive (more than five for eager images);
      a synchronous third-party script issue comes with a render-blocking script issue. The score
      is 100 less the deductions of the issues raised, lies in [10, 100], and is 100 exactly when
      no issue is raised. */
  function AnalyzePerformance(url: string, info: PerformanceInfo): (r: PerformanceAnalysis)
    ensures r.url == url && r.info == info
    ensures 10 <= r.score <= 100
    ensures r.score == 100 - TotalPenalty(r.issues)
    ensures r.score == 100 <==> r.issues == []
    ensures BlockingCssIssue(info) in r.issues <==> Count(info.stylesheets, IsRenderBlocking) > 0
    ensures BlockingJsIssue(info) in r.issues <==> Count(info.scripts, IsRenderBlocking) > 0
    ensures SyncThirdPartyIssue(info) in r.issues <==> Count(info.scripts, IsSyncThirdParty) > 0
    ensures EagerImagesIssue(info) in r.issues <==> Count(info.images, IsEager) > EagerImageAllowance
    ensures DimensionsIssue(info) in r.issues <==> Count(info.images, LacksDimensions) > 0
    ensures EagerIframesIssue(info) in r.issues <==> Count(info.iframes, IsEager) > 0
    ensures SyncThirdPartyIssue(info) in r.issues ==> BlockingJsIssue(info) in r.issues
    ensures |r.issues| <= 6
  {
    ScoreIsPenalties(info);
    PenaltiesPositive(PerformanceIssues(info));
    SyncScriptsBlock(info);
    IssuesRaised(info);
    PerformanceAnalysis(url, info, PerformanceIssues(info), Score(info))
  }
}
