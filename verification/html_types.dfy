/** The records the HTML analyzers take from the page parser and hand back, and the counting
    functions their statistics are stated with. Every issue has a severity, a type and the thing it
    concerns; message and details text is presentation and is not modelled. */
module HtmlTypes {
  import opened Wrappers

  datatype Severity = Error | Warning | Info

  /** An issue of type `kind` about `subject` (the heading, link, image, form input, WCAG
      criterion or impact the source attaches to it). */
  datatype Issue<K, S> = Issue(severity: Severity, kind: K, subject: S)

  /** A string that may be null: JavaScript treats null and "" alike as false. */
  predicate Present(s: Option<string>) {
    s.Some? && s.value != ""
  }

  function Min(a: int, b: int): int {
    if a < b then a else b
  }

  /** The issue a check raises when it fails: `issue` alone, or nothing. */
  function Flag<T(==,!new)>(fails: bool, issue: T): (r: seq<T>)
    ensures forall x :: x in r <==> fails && x == issue
    ensures |r| <= 1
  {
    if fails then [issue] else []
  }

  /** A scored check's effect on the running score: its deduction when it fails. */
  function Deduct(score: int, fails: bool, amount: int): int {
    if fails then score - amount else score
  }

  /** How many elements of `s` satisfy `p`, the length of `s.filter(p)`. */
  function Count<T>(s: seq<T>, p: T -> bool): (n: nat)
    ensures n <= |s|
  {
    if |s| == 0 then 0 else Count(s[..|s| - 1], p) + (if p(s[|s| - 1]) then 1 else 0)
  }

  lemma {:induction false} CountNone<T>(s: seq<T>, p: T -> bool)
    ensures Count(s, p) == 0 <==> forall i :: 0 <= i < |s| ==> !p(s[i])
  {
    if |s| > 0 {
      var t := s[..|s| - 1];
      CountNone(t, p);
      assert forall i :: 0 <= i < |t| ==> t[i] == s[i];
    }
  }

  /** Extending a prefix of `s` by one element adds that element's share to the count. */
  lemma CountPrefixStep<T>(s: seq<T>, i: int, p: T -> bool)
    requires 0 <= i < |s|
    ensures Count(s[..i + 1], p) == Count(s[..i], p) + (if p(s[i]) then 1 else 0)
  {
    assert s[..i + 1][..i] == s[..i];
  }

  lemma {:induction false} CountAppend<T>(a: seq<T>, b: seq<T>, p: T -> bool)
    ensures Count(a + b, p) == Count(a, p) + Count(b, p)
    decreases |b|
  {
    if |b| == 0 {
      assert a + b == a;
    } else {
      var c := b[..|b| - 1];
      assert (a + b)[..|a + b| - 1] == a + c;
      CountAppend(a, c, p);
    }
  }

  lemma {:induction false} CountImplies<T>(s: seq<T>, p: T -> bool, q: T -> bool)
    requires forall x :: p(x) ==> q(x)
    ensures Count(s, p) <= Count(s, q)
  {
    if |s| > 0 {
      CountImplies(s[..|s| - 1], p, q);
    }
  }

  lemma AppendAssoc<T>(a: seq<T>, b: seq<T>, c: seq<T>)
    ensures (a + b) + c == a + (b + c)
  {
  }

  /** How many issues in `issues` have type `k`. */
  function KindCount<K(==), S>(issues: seq<Issue<K, S>>, k: K): (n: nat)
    ensures n <= |issues|
  {
    if |issues| == 0 then 0
    else KindCount(issues[..|issues| - 1], k) + (if issues[|issues| - 1].kind == k then 1 else 0)
  }

  lemma KindCountSnoc<K, S>(issues: seq<Issue<K, S>>, x: Issue<K, S>, k: K)
    ensures KindCount(issues + [x], k) == KindCount(issues, k) + (if x.kind == k then 1 else 0)
  {
    assert (issues + [x])[..|issues|] == issues;
  }

  lemma {:induction false} KindCountAppend<K, S>(a: seq<Issue<K, S>>, b: seq<Issue<K, S>>, k: K)
    ensures KindCount(a + b, k) == KindCount(a, k) + KindCount(b, k)
    decreases |b|
  {
    if |b| == 0 {
      assert a + b == a;
    } else {
      var c := b[..|b| - 1];
      var x := b[|b| - 1];
      assert b == c + [x];
      assert a + b == (a + c) + [x];
      KindCountAppend(a, c, k);
      KindCountSnoc(a + c, x, k);
      KindCountSnoc(c, x, k);
    }
  }

  lemma KindCountsAppend<K, S>(a: seq<Issue<K, S>>, b: seq<Issue<K, S>>)
    ensures forall k :: KindCount(a + b, k) == KindCount(a, k) + KindCount(b, k)
  {
    forall k {
      KindCountAppend(a, b, k);
    }
  }

  /** The issues of `xs`, element by element: `issuesOf(x)` for each `x`, in order. */
  function Gather<T, I>(xs: seq<T>, issuesOf: T -> seq<I>): seq<I> {
    if |xs| == 0 then [] else Gather(xs[..|xs| - 1], issuesOf) + issuesOf(xs[|xs| - 1])
  }

  lemma GatherSnoc<T, I>(xs: seq<T>, x: T, issuesOf: T -> seq<I>)
    ensures Gather(xs + [x], issuesOf) == Gather(xs, issuesOf) + issuesOf(x)
  {
    assert (xs + [x])[..|xs|] == xs;
  }

  /** Extending a prefix of `xs` by one element appends that element's issues. */
  lemma GatherPrefixStep<T, I>(xs: seq<T>, i: int, issuesOf: T -> seq<I>)
    requires 0 <= i < |xs|
    ensures Gather(xs[..i + 1], issuesOf) == Gather(xs[..i], issuesOf) + issuesOf(xs[i])
  {
    assert xs[..i + 1][..i] == xs[..i];
  }

  /** When each element contributes one issue of type `k` if it satisfies `p` and none otherwise,
      the gathered issues hold one of type `k` per element satisfying `p`. */
  lemma {:induction false} GatherKindCount<T, K, S>(xs: seq<T>, issuesOf: T -> seq<Issue<K, S>>, k: K, p: T -> bool)
    requires forall x :: KindCount(issuesOf(x), k) == (if p(x) then 1 else 0)
    ensures KindCount(Gather(xs, issuesOf), k) == Count(xs, p)
  {
    if |xs| > 0 {
      var front := xs[..|xs| - 1];
      GatherKindCount(front, issuesOf, k, p);
      KindCountAppend(Gather(front, issuesOf), issuesOf(xs[|xs| - 1]), k);
    }
  }

  /** As GatherKindCount, for elements that contribute one issue of type `k` for each of `p` and
      `q` they satisfy. */
  lemma {:induction false} GatherKindCount2<T, K, S>(xs: seq<T>, issuesOf: T -> seq<Issue<K, S>>, k: K, p: T -> bool, q: T -> bool)
    requires forall x :: KindCount(issuesOf(x), k) == (if p(x) then 1 else 0) + (if q(x) then 1 else 0)
    ensures KindCount(Gather(xs, issuesOf), k) == Count(xs, p) + Count(xs, q)
  {
    if |xs| > 0 {
      var front := xs[..|xs| - 1];
      GatherKindCount2(front, issuesOf, k, p, q);
      KindCountAppend(Gather(front, issuesOf), issuesOf(xs[|xs| - 1]), k);
    }
  }

  lemma {:induction false} KindCountNone<K, S>(issues: seq<Issue<K, S>>, k: K)
    ensures KindCount(issues, k) == 0 <==> forall i :: 0 <= i < |issues| ==> issues[i].kind != k
  {
    if |issues| > 0 {
      var t := issues[..|issues| - 1];
      KindCountNone(t, k);
      assert forall i :: 0 <= i < |t| ==> t[i] == issues[i];
    }
  }

  // Headings (types.ts HeadingInfo, HeadingIssue, HeadingAnalysis)

  datatype HeadingInfo = HeadingInfo(level: int, text: string, index: int, empty: bool)
  datatype HeadingIssueType = MissingH1 | MultipleH1 | SkippedLevel | EmptyHeading
  type HeadingIssue = Issue<HeadingIssueType, Option<HeadingInfo>>
  datatype HeadingAnalysis = HeadingAnalysis(
    url: string, headings: seq<HeadingInfo>, issues: seq<HeadingIssue>, counts: map<int, nat>)

  // Links and buttons (LinkInfo, LinkIssue, LinkAnalysis)

  datatype Element = Anchor | Button
  /** `hasOnclick` and `inForm` are optional in the source; an absent flag reads as false. */
  datatype LinkInfo = LinkInfo(
    href: Option<string>, text: string, index: int, element: Element,
    hasOnclick: bool, inForm: bool, buttonType: Option<string>)
  datatype LinkIssueType = EmptyHref | JavascriptVoid | HashOnly | NoText | ButtonNoAction
  type LinkIssue = Issue<LinkIssueType, LinkInfo>
  datatype LinkStats = LinkStats(
    totalLinks: nat, totalButtons: nat, emptyHref: nat, javascriptVoid: nat,
    hashOnly: nat, noText: nat, buttonNoAction: nat)
  datatype LinkAnalysis = LinkAnalysis(
    url: string, links: seq<LinkInfo>, buttons: seq<LinkInfo>, issues: seq<LinkIssue>, stats: LinkStats)

  // Images (ImageInfo, ImageIssue, ImageAnalysis)

  datatype ImageInfo = ImageInfo(
    src: string, alt: Option<string>, hasAlt: bool, width: Option<string>,
    height: Option<string>, loading: Option<string>, index: int)
  datatype ImageIssueType = MissingAlt | EmptyAlt | GenericAlt | LongAlt | MissingDimensions
  type ImageIssue = Issue<ImageIssueType, ImageInfo>
  datatype ImageStats = ImageStats(
    total: nat, withAlt: nat, missingAlt: nat, emptyAlt: nat, withDimensions: nat, withLazyLoading: nat)
  datatype ImageAnalysis = ImageAnalysis(
    url: string, images: seq<ImageInfo>, issues: seq<ImageIssue>, stats: ImageStats)

  // Meta tags (MetaInfo, MetaIssue, MetaAnalysis)

  datatype MetaInfo = MetaInfo(
    title: Option<string>, description: Option<string>, canonical: Option<string>,
    ogTitle: Option<string>, ogDescription: Option<string>, ogImage: Option<string>,
    ogUrl: Option<string>, twitterCard: Option<string>, twitterTitle: Option<string>,
    twitterDescription: Option<string>, twitterImage: Option<string>,
    robots: Option<string>, viewport: Option<string>)
  datatype MetaIssueType =
    | MissingTitle | TitleTooShort | TitleTooLong
    | MissingDescription | DescriptionTooShort | DescriptionTooLong
    | MissingCanonical | MissingOgTitle | MissingOgDescription | MissingOgImage | MissingTwitterCard
  type MetaIssue = Issue<MetaIssueType, ()>
  datatype MetaAnalysis = MetaAnalysis(url: string, meta: MetaInfo, issues: seq<MetaIssue>)

  // Forms (FormInputInfo, FormInfo, FormIssue, FormAnalysis)

  datatype FormInputInfo = FormInputInfo(
    inputType: string, name: Option<string>, id: Option<string>, hasLabel: bool,
    labelText: Option<string>, placeholder: Option<string>, required: bool,
    autocomplete: Option<string>, ariaLabel: Option<string>, index: int)
  datatype FormInfo = FormInfo(
    action: Option<string>, httpMethod: Option<string>, hasSubmit: bool,
    inputs: seq<FormInputInfo>, index: int)
  datatype FormIssueType = MissingLabel | PlaceholderAsLabel | WrongInputType | NoSubmit
  /** What a form issue is about: the form's index, for input issues the input's index, and for
      a wrong input type the type the input should have. */
  datatype FormSubject = FormSubject(formIndex: int, inputIndex: Option<int>, suggestedType: Option<string>)
  type FormIssue = Issue<FormIssueType, FormSubject>
  datatype FormStats = FormStats(
    totalForms: nat, totalInputs: nat, inputsWithLabels: nat, inputsWithoutLabels: nat)
  datatype FormAnalysis = FormAnalysis(
    url: string, forms: seq<FormInfo>, issues: seq<FormIssue>, stats: FormStats)

  // Accessibility (A11yInfo, A11yIssue, A11yAnalysis)

  datatype Landmarks = Landmarks(main: bool, nav: nat, header: bool, footer: bool)
  datatype A11yInfo = A11yInfo(
    lang: Option<string>, hasSkipLink: bool, landmarks: Landmarks,
    emptyLinks: nat, emptyButtons: nat, focusableHidden: nat, positiveTabindex: nat)
  datatype A11yIssueType =
    | MissingLang | MissingSkipLink | MissingMainLandmark
    | EmptyLink | EmptyButton | FocusableHidden | PositiveTabindex
  /** An accessibility issue's subject is the WCAG success criterion it cites. */
  type A11yIssue = Issue<A11yIssueType, string>
  datatype A11yAnalysis = A11yAnalysis(url: string, info: A11yInfo, issues: seq<A11yIssue>, score: int)

  // Performance (ResourceInfo, PerformanceInfo, PerformanceIssue, PerformanceAnalysis)

  /** The optional flags of a resource; an absent flag reads as false. */
  datatype ResourceInfo = ResourceInfo(
    url: string, renderBlocking: bool, hasLazy: bool, hasDimensions: bool, isThirdParty: bool)
  datatype ResourceHint = ResourceHint(rel: string, href: string)
  datatype PerformanceInfo = PerformanceInfo(
    stylesheets: seq<ResourceInfo>, scripts: seq<ResourceInfo>, images: seq<ResourceInfo>,
    iframes: seq<ResourceInfo>, resourceHints: seq<ResourceHint>, inlineStyles: nat, inlineScripts: nat)
  datatype PerformanceIssueType =
    | RenderBlockingCss | RenderBlockingJs | SyncThirdParty | NoLazyLoading | MissingDimensionsPerf
  datatype Impact = High | Medium | Low
  /** The resource list a performance check looks at. */
  datatype ResourceKind = Stylesheets | Scripts | Images | Iframes
  /** A performance issue's subject: its impact, the resources it is about and how many of them
      the check found (the number its message reports). */
  datatype PerfSubject = PerfSubject(impact: Impact, resources: ResourceKind, count: nat)
  type PerformanceIssue = Issue<PerformanceIssueType, PerfSubject>
  datatype PerformanceAnalysis = PerformanceAnalysis(
    url: string, info: PerformanceInfo, issues: seq<PerformanceIssue>, score: int)
}
