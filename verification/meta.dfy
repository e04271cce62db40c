/** The meta-tag analyzer: title and description presence and length, and the canonical, Open
    Graph and Twitter tags. */
module Meta {
  import opened Wrappers
  import opened HtmlTypes

  const MinTitle := 30
  const MaxTitle := 60
  const MinDescription := 50
  const MaxDescription := 160

  /** The issues of a length-checked tag: missing (an error), else too short and too long as they
      apply (warnings). */
  function LengthIssues(tag: Option<string>, missing: MetaIssueType, short: MetaIssueType,
                        long: MetaIssueType, min: int, max: int): (r: seq<MetaIssue>)
    requires missing != short && missing != long && short != long
    ensures Issue(Error, missing, ()) in r <==> !Present(tag)
    ensures Issue(Warning, short, ()) in r <==> Present(tag) && |tag.value| < min
    ensures Issue(Warning, long, ()) in r <==> Present(tag) && |tag.value| > max
    ensures forall x :: x in r ==> x.kind == missing || x.kind == short || x.kind == long
    ensures forall x :: x in r ==> (x.severity == Error <==> x.kind == missing)
    ensures min <= max ==> |r| <= 1
  {
    if !Present(tag) then [Issue(Error, missing, ())]
    else
      (if |tag.value| < min then [Issue(Warning, short, ())] else [])
      + (if |tag.value| > max then [Issue(Warning, long, ())] else [])
  }

  /** The issue of an optional tag: present only when the tag is null or empty. */
  function AbsenceIssue(tag: Option<string>, severity: Severity, missing: MetaIssueType): (r: seq<MetaIssue>)
    ensures Issue(severity, missing, ()) in r <==> !Present(tag)
    ensures forall x :: x in r ==> x == Issue(severity, missing, ())
    ensures |r| <= 1
  {
    if Present(tag) then [] else [Issue(severity, missing, ())]
  }

  /** The issue types of the title and description checks. */
  predicate ContentKind(k: MetaIssueType) {
    k.MissingTitle? || k.TitleTooShort? || k.TitleTooLong? ||
    k.MissingDescription? || k.DescriptionTooShort? || k.DescriptionTooLong?
  }

  /** The title and description issues, in that order. */
  function ContentIssues(meta: MetaInfo): (r: seq<MetaIssue>)
    ensures Issue(Error, MissingTitle, ()) in r <==> !Present(meta.title)
    ensures Issue(Warning, TitleTooShort, ()) in r <==> Present(meta.title) && |meta.title.value| < MinTitle
    ensures Issue(Warning, TitleTooLong, ()) in r <==> Present(meta.title) && |meta.title.value| > MaxTitle
    ensures Issue(Error, MissingDescription, ()) in r <==> !Present(meta.description)
    ensures Issue(Warning, DescriptionTooShort, ()) in r <==>
      Present(meta.description) && |meta.description.value| < MinDescription
    ensures Issue(Warning, DescriptionTooLong, ()) in r <==>
      Present(meta.description) && |meta.description.value| > MaxDescription
    ensures forall x :: x in r ==> (x.severity == Error <==> x.kind == MissingTitle || x.kind == MissingDescription)
    ensures forall x :: x in r ==> ContentKind(x.kind)
    ensures |r| <= 2
  {
    LengthIssues(meta.title, MissingTitle, TitleTooShort, TitleTooLong, MinTitle, MaxTitle)
    + LengthIssues(meta.description, MissingDescription, DescriptionTooShort, DescriptionTooLong, MinDescription, MaxDescription)
  }

  /** The Open Graph issues (title, description, image), in that order. */
  function OpenGraphIssues(meta: MetaInfo): (r: seq<MetaIssue>)
    ensures Issue(Info, MissingOgTitle, ()) in r <==> !Present(meta.ogTitle)
    ensures Issue(Info, MissingOgDescription, ()) in r <==> !Present(meta.ogDescription)
    ensures Issue(Info, MissingOgImage, ()) in r <==> !Present(meta.ogImage)
    ensures forall x :: x in r ==> x.severity == Info
    ensures forall x :: x in r ==> x.kind.MissingOgTitle? || x.kind.MissingOgDescription? || x.kind.MissingOgImage?
    ensures |r| <= 3
  {
    AbsenceIssue(meta.ogTitle, Info, MissingOgTitle)
    + AbsenceIssue(meta.ogDescription, Info, MissingOgDescription)
    + AbsenceIssue(meta.ogImage, Info, MissingOgImage)
  }

  /** The canonical, Open Graph and Twitter card issues, in that order. */
  function SharingIssues(meta: MetaInfo): (r: seq<MetaIssue>)
    ensures Issue(Warning, MissingCanonical, ()) in r <==> !Present(meta.canonical)
    ensures Issue(Info, MissingOgTitle, ()) in r <==> !Present(meta.ogTitle)
    ensures Issue(Info, MissingOgDescription, ()) in r <==> !Present(meta.ogDescription)
    ensures Issue(Info, MissingOgImage, ()) in r <==> !Present(meta.ogImage)
    ensures Issue(Info, MissingTwitterCard, ()) in r <==> !Present(meta.twitterCard)
    ensures forall x :: x in r ==> x.severity != Error
    ensures forall x :: x in r ==> !ContentKind(x.kind)
    ensures |r| <= 5
  {
    AbsenceIssue(meta.canonical, Warning, MissingCanonical)
    + OpenGraphIssues(meta)
    + AbsenceIssue(meta.twitterCard, Info, MissingTwitterCard)
  }

  /** The meta analysis of a page: the title and description issues followed by the sharing-tag
      issues. Only a missing title or description is an error. */
  function AnalyzeMeta(url: string, meta: MetaInfo): (r: MetaAnalysis)
    ensures r.url == url && r.meta == meta
    ensures forall x :: x in r.issues ==> (x.severity == Error <==> x.kind == MissingTitle || x.kind == MissingDescription)
    ensures |r.issues| <= 7
  {
    MetaAnalysis(url, meta, ContentIssues(meta) + SharingIssues(meta))
  }

  /** A missing title is an error; a present one is flagged when shorter than the minimum or longer
      than the maximum, never both. */
  lemma TitleChecks(url: string, meta: MetaInfo)
    ensures var issues := AnalyzeMeta(url, meta).issues;
      && (Issue(Error, MissingTitle, ()) in issues <==> !Present(meta.title))
      && (Issue(Warning, TitleTooShort, ()) in issues <==> Present(meta.title) && |meta.title.value| < MinTitle)
      && (Issue(Warning, TitleTooLong, ()) in issues <==> Present(meta.title) && |meta.title.value| > MaxTitle)
      && !(Issue(Warning, TitleTooShort, ()) in issues && Issue(Warning, TitleTooLong, ()) in issues)
  {
  }

  /** The same checks for the description, with its own bounds. */
  lemma DescriptionChecks(url: string, meta: MetaInfo)
    ensures var issues := AnalyzeMeta(url, meta).issues;
      && (Issue(Error, MissingDescription, ()) in issues <==> !Present(meta.description))
      && (Issue(Warning, DescriptionTooShort, ()) in issues <==>
          Present(meta.description) && |meta.description.value| < MinDescription)
      && (Issue(Warning, DescriptionTooLong, ()) in issues <==>
          Present(meta.description) && |meta.description.value| > MaxDescription)
      && !(Issue(Warning, DescriptionTooShort, ()) in issues && Issue(Warning, DescriptionTooLong, ()) in issues)
  {
  }

  /** A missing (null or empty) canonical link or Twitter card tag is flagged, and only then. */
  lemma SharingChecks(url: string, meta: MetaInfo)
    ensures var issues := AnalyzeMeta(url, meta).issues;
      && (Issue(Warning, MissingCanonical, ()) in issues <==> !Present(meta.canonical))
      && (Issue(Info, MissingTwitterCard, ()) in issues <==> !Present(meta.twitterCard))
  {
  }

  /** Each missing (null or empty) Open Graph tag is flagged, and only those. */
  lemma OpenGraphChecks(url: string, meta: MetaInfo)
    ensures var issues := AnalyzeMeta(url, meta).issues;
      && (Issue(Info, MissingOgTitle, ()) in issues <==> !Present(meta.ogTitle))
      && (Issue(Info, MissingOgDescription, ()) in issues <==> !Present(meta.ogDescription))
      && (Issue(Info, MissingOgImage, ()) in issues <==> !Present(meta.ogImage))
  {
  }
}
